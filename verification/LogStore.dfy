/**
 * The log handlers as code: each method runs one delivery from its first read to its last
 * send without interference, updating the tables in place.
 */
module LogStore {
  import opened Wrappers
  import opened LogProtocol
  import opened LogSafety

  datatype Outcome = Done | Duplicate | Waiting | Retry

  /** One undisturbed delivery: the database and outcome it leaves, and the records it asks for. */
  datatype Effect = Effect(db: Db, outcome: Outcome, requested: seq<RunId>)

  function Requests(db: Db, phase: Phase): seq<RunId> {
    if phase.Notifying? && RunTerminal(db, phase.run) then [phase.run] else []
  }

  function Undisturbed(env: Env, db: Db, m: Message): Effect {
    var read := ReadPlan(env, db, m);
    if read.None? then Effect(db, Waiting, [])
    else
      var plan := read.value;
      if !Conflict(db, plan) then
        var after := Committed(db, plan);
        Effect(after, Done, Requests(after, AfterCommit(m, plan)))
      else if AfterConflict(m, plan) == Recovering then Resumed(db, Recovered(env, db, m))
      else Effect(db, Retry, [])
  }

  /** The end of a create whose insert lost. */
  function Resumed(db: Db, phase: Phase): Effect {
    match phase
    case Acked => Effect(db, Duplicate, [])
    case Planned(plan) => if Conflict(db, plan) then Effect(db, Retry, []) else Effect(Committed(db, plan), Duplicate, [])
    case _ => Effect(db, Retry, [])
  }

  /** A record request for each run. */
  function Sent(requested: seq<RunId>): (events: seq<Event>)
    ensures |events| == |requested| && forall i :: 0 <= i < |events| ==> events[i] == RecordRunSent(requested[i])
  {
    seq(|requested|, i requires 0 <= i < |requested| => RecordRunSent(requested[i]))
  }

  /** What an undisturbed delivery leaves in the log: the commit of its rows, then its requests. */
  function Logged(h: HandlerId, e: Effect): seq<Event> {
    (if e.outcome == Done then [WriteCommitted(h)] else []) + Sent(e.requested)
  }

  /** Handler `h` of message `m` is in `phase` over `db`, `events` were logged, and every other handler is as in `s`. */
  predicate Moved(s: State, s': State, h: HandlerId, m: Message, db: Db, phase: Phase, events: seq<Event>) {
    s'.db == db && s'.handlers == s.handlers[h := Handler(m, phase)] && s'.log == s.log + events
  }

  lemma ReadMoves(env: Env, s: State, h: HandlerId, m: Message)
    requires h in s.handlers && s.handlers[h] == Handler(m, Ready)
    ensures var read := ReadPlan(env, s.db, m);
      Moved(s, Exec(env, s, [Begin(h)]), h, m, s.db, if read.None? then Ready else Planned(read.value), [])
  {
    ExecSnoc(env, s, [], Begin(h));
    assert [] + [Begin(h)] == [Begin(h)];
  }

  /** The events of a commit that succeeds. */
  function CommitEvents(h: HandlerId, plan: Plan): seq<Event> {
    if plan.KeepPayloads? then [] else [WriteCommitted(h)]
  }

  lemma CommitMoves(env: Env, s: State, s': State, h: HandlerId, m: Message, plan: Plan)
    requires Moved(s, s', h, m, s.db, Planned(plan), [])
    ensures var after := Exec(env, s', [Commit(h)]);
      if Conflict(s.db, plan) then Moved(s, after, h, m, s.db, AfterConflict(m, plan), [])
      else Moved(s, after, h, m, Committed(s.db, plan), AfterCommit(m, plan), CommitEvents(h, plan))
  {
    ExecSnoc(env, s', [], Commit(h));
    assert [] + [Commit(h)] == [Commit(h)];
  }

  lemma RecoveryMoves(env: Env, s: State, s': State, h: HandlerId, m: Message)
    requires Moved(s, s', h, m, s.db, Recovering, [])
    ensures Moved(s, Exec(env, s', [Begin(h)]), h, m, s.db, Recovered(env, s.db, m), [])
  {
    ExecSnoc(env, s', [], Begin(h));
    assert [] + [Begin(h)] == [Begin(h)];
  }

  lemma NotifyMoves(
      env: Env, s: State, s': State, h: HandlerId, m: Message, db: Db, run: RunId, events: seq<Event>)
    requires Moved(s, s', h, m, db, Notifying(run), events)
    ensures Moved(s, Exec(env, s', [Notify(h)]), h, m, db, Acked, events + Sent(Requests(db, Notifying(run))))
  {
    ExecSnoc(env, s', [], Notify(h));
    assert [] + [Notify(h)] == [Notify(h)];
    var sent := Sent(Requests(db, Notifying(run)));
    assert sent == if RunTerminal(db, run) then [RecordRunSent(run)] else [];
    assert s.log + events + sent == s.log + (events + sent);
  }

  /**
   * A delivery run by the code without interference is a run of the protocol: some actions of
   * one handler take the database where the code takes it, log the commit of its rows and then
   * exactly its requests, and the handler is acknowledged exactly when the code reports the
   * message as done or as a duplicate.
   */
  lemma UndisturbedIsProtocol(env: Env, s: State, h: HandlerId, m: Message) returns (actions: seq<Action>, phase: Phase)
    requires h !in s.handlers
    ensures var e := Undisturbed(env, s.db, m);
      && Moved(s, Exec(env, s, actions), h, m, e.db, phase, Logged(h, e))
      && (phase == Acked <==> e.outcome == Done || e.outcome == Duplicate)
  {
    var delivered := Step(env, s, Deliver(h, m));
    ExecSnoc(env, s, [], Deliver(h, m));
    assert [] + [Deliver(h, m)] == [Deliver(h, m)];
    actions, phase := RedeliveryIsProtocol(env, delivered, h, m);
    ExecSplits(env, s, [Deliver(h, m)], actions);
    actions := [Deliver(h, m)] + actions;
  }

  /** The same for a handler that is waiting to be delivered again. */
  lemma RedeliveryIsProtocol(env: Env, s: State, h: HandlerId, m: Message) returns (actions: seq<Action>, phase: Phase)
    requires h in s.handlers && s.handlers[h] == Handler(m, Ready)
    ensures var e := Undisturbed(env, s.db, m);
      && Moved(s, Exec(env, s, actions), h, m, e.db, phase, Logged(h, e))
      && (phase == Acked <==> e.outcome == Done || e.outcome == Duplicate)
  {
    hide Conflict, Committed, AfterCommit, AfterConflict, Recovered, ReadPlan;
    actions := [Begin(h)];
    ReadMoves(env, s, h, m);
    ReadPlanInserts(env, s.db, m);
    var read := ReadPlan(env, s.db, m);
    if read.None? {
      return actions, Ready;
    }
    var plan, s2 := read.value, Exec(env, s, actions);
    CommitMoves(env, s, s2, h, m, plan);
    LogSplits(env, s, actions, [Commit(h)]);
    actions := actions + [Commit(h)];
    var s3 := Exec(env, s, actions);
    PhasesAfter(env, s.db, m, plan);
    if !Conflict(s.db, plan) {
      phase := AfterCommit(m, plan);
      if phase.Notifying? {
        NotifyMoves(env, s, s3, h, m, Committed(s.db, plan), phase.run, [WriteCommitted(h)]);
        LogSplits(env, s, actions, [Notify(h)]);
        return actions + [Notify(h)], Acked;
      }
    } else if AfterConflict(m, plan) == Recovering {
      RecoveryMoves(env, s, s3, h, m);
      LogSplits(env, s, actions, [Begin(h)]);
      actions := actions + [Begin(h)];
      phase := Recovered(env, s.db, m);
      if phase.Planned? {
        CommitMoves(env, s, Exec(env, s, actions), h, m, phase.plan);
        LogSplits(env, s, actions, [Commit(h)]);
        actions := actions + [Commit(h)];
        PhasesAfter(env, s.db, m, phase.plan);
        phase := if Conflict(s.db, phase.plan) then AfterConflict(m, phase.plan) else AfterCommit(m, phase.plan);
      }
    } else {
      phase := AfterConflict(m, plan);
    }
  }

  lemma ReadPlanInserts(env: Env, db: Db, m: Message)
    ensures ReadPlan(env, db, m).Some? ==> !ReadPlan(env, db, m).value.KeepPayloads?
  {
  }

  /** Where the ends of a commit and of a recovery can lead. */
  lemma PhasesAfter(env: Env, db: Db, m: Message, plan: Plan)
    ensures AfterCommit(m, plan).Notifying? || AfterCommit(m, plan).Acked?
    ensures AfterConflict(m, plan).Recovering? || AfterConflict(m, plan).Ready?
    ensures plan.KeepPayloads? ==> AfterCommit(m, plan) == Acked && AfterConflict(m, plan) == Ready
    ensures var phase := Recovered(env, db, m);
      phase.Acked? || phase.Ready? || (phase.Planned? && phase.plan.KeepPayloads?)
  {
  }

  lemma LogSplits(env: Env, s: State, first: seq<Action>, last: seq<Action>)
    requires |last| == 1
    ensures Exec(env, s, first + last) == Exec(env, Exec(env, s, first), last)
  {
    assert (first + last)[..|first|] == first && last[..0] == [];
  }

  lemma ExecSnoc(env: Env, s: State, actions: seq<Action>, a: Action)
    ensures var before := Exec(env, s, actions);
      Exec(env, s, actions + [a]) == if Enabled(before, a) then Step(env, before, a) else before
  {
    assert (actions + [a])[..|actions|] == actions;
  }

  // ----- What each undisturbed delivery amounts to -----

  /** Rows and payloads committed together when the payloads fit, otherwise nothing but a retry. */
  function Written(before: Db, rows: Db, added: seq<(PayloadId, Payload)>, requests: seq<RunId>): Effect {
    if PayloadsFit(rows, added) then Effect(rows.(payloads := WithPayloads(rows.payloads, added)), Done, requests)
    else Effect(before, Retry, [])
  }

  /** The requests of a write come with its success, and change nothing else about it. */
  lemma WrittenIs(before: Db, rows: Db, added: seq<(PayloadId, Payload)>, requests: seq<RunId>)
    ensures var e, silent := Written(before, rows, added, requests), Written(before, rows, added, []);
      && e.db == silent.db && e.outcome == silent.outcome
      && e.requested == (if e.outcome == Done then requests else [])
      && (e.outcome == Done ==> e.db.runs == rows.runs)
  {
  }

  lemma StoredRunIsTerminal(db: Db, run: RunId)
    requires run in db.runs && db.runs[run].status != RunRunning
    ensures RunTerminal(db, run)
  {
  }

  lemma CreateRunEffect(env: Env, db: Db, d: RunCreation)
    ensures var row := RunRow(RunRunning, OrEmpty(d.inputs), Null, None, d.startedAt, None, None);
      Undisturbed(env, db, CreateRun(d)) ==
        if d.run in db.runs then Effect(db, Duplicate, [])
        else Written(db, db.(runs := db.runs[d.run := row]), NewPayloads(db.payloads.Keys, d.run, d.payloads), [])
  {
    hide NewPayloads, WithPayloads;
  }

  lemma FinishRunEffect(env: Env, db: Db, d: RunFinish)
    requires d.run in db.runs
    ensures var run := db.runs[d.run];
      var finished := RunRow(
        RunSuccess, run.inputs, d.outputs, None, run.startedAt, Some(d.finishedAt), Some(d.finishedAt - run.startedAt));
      var rows := db.(runs := db.runs[d.run := finished],
                            nodes := PatchedMetadata(db.nodes, DownstreamMetadata(env, db, d.run, "passed")));
      Undisturbed(env, db, FinishRun(d)) == Written(db, rows, NewPayloads(db.payloads.Keys, d.run, d.payloads), [d.run])
  {
    PatchOfLoadedRun(db.runs[d.run], FinishedRun(db.runs[d.run], d));
    hide NewPayloads, WithPayloads, DownstreamMetadata, PatchedMetadata, PayloadsFit, PatchedRun;
  }

  lemma ErrorRunEffect(env: Env, db: Db, d: RunError)
    requires d.run in db.runs
    ensures var run := db.runs[d.run];
      var failed := RunRow(
        RunFailed, run.inputs, run.outputs, Some(d.error), run.startedAt, Some(d.finishedAt),
        Some(d.finishedAt - run.startedAt));
      Undisturbed(env, db, ErrorRun(d)) == Effect(
      db.(runs := db.runs[d.run := failed],
          nodes := PatchedMetadata(db.nodes, DownstreamMetadata(env, db, d.run, "failed"))),
      Done, [d.run])
  {
    PatchOfLoadedRun(db.runs[d.run], FailedRun(db.runs[d.run], d));
  }

  lemma CreateNodeEffect(env: Env, db: Db, d: NodeCreation)
    requires d.run in db.runs
    ensures var c := CapturedCreate(env, d);
      var row, added := RowFromCreateNode(c), NewPayloads(db.payloads.Keys, d.run, c.payloads);
      Undisturbed(env, db, CreateNode(d)) ==
        if d.node !in db.nodes then
          Written(db, db.(nodes := db.nodes[d.node := row]), added, RequestsForNode(db, d.run, row.nodeType))
        else if env.metadataOnly(
          Some(db.nodes[d.node].nodeType), db.nodes[d.node].processData, db.nodes[d.node].traceMetadata)
        then Effect(db, Duplicate, [])
        else if PayloadsFit(db, added) then Effect(db.(payloads := WithPayloads(db.payloads, added)), Duplicate, [])
        else Effect(db, Retry, [])
  {
    hide RowFromCreateNode, NewPayloads, WithPayloads, CapturedCreate;
    CreateKeepsRun(env, d);
    assert db.payloads - {} == db.payloads;
  }

  lemma CreateKeepsRun(env: Env, d: NodeCreation)
    ensures var row := RowFromCreateNode(CapturedCreate(env, d));
      row.run == d.run && row.nodeType == d.nodeType
  {
  }

  function RequestsForNode(db: Db, run: RunId, nodeType: string): seq<RunId> {
    if nodeType == "llmNode" && RunTerminal(db, run) then [run] else []
  }

  lemma NoFinishWithoutRun(env: Env, db: Db, d: RunFinish)
    requires d.run !in db.runs
    ensures Undisturbed(env, db, FinishRun(d)) == Effect(db, Waiting, [])
  {
  }

  lemma NothingWithoutRun(env: Env, db: Db, d: NodeFinish)
    requires d.node !in db.nodes && d.run !in db.runs
    ensures Undisturbed(env, db, FinishNode(d)) == Effect(db, Waiting, [])
  {
  }

  lemma NoErrorWithoutRun(env: Env, db: Db, d: NodeError)
    requires d.node !in db.nodes && d.run !in db.runs
    ensures Undisturbed(env, db, ErrorNode(d)) == Effect(db, Waiting, [])
  {
  }

  lemma FinishKeepsRun(env: Env, d: NodeFinish)
    ensures RowFromFinishNode(env, CapturedFinish(env, d)).run == d.run
  {
  }

  lemma FinishNodeEffect(env: Env, db: Db, d: NodeFinish)
    requires d.node in db.nodes || d.run in db.runs
    ensures var f := CapturedFinish(env, d);
      var purged := if FinishSummary(env, d).Some? then PayloadsOfNode(db, d.node) else {};
      var row := if d.node in db.nodes then FinishedNode(env, db.nodes[d.node], f) else RowFromFinishNode(env, f);
      Undisturbed(env, db, FinishNode(d)) == Written(
        db, db.(nodes := db.nodes[d.node := row], payloads := db.payloads - purged),
        NewPayloads(db.payloads.Keys - purged, d.run, f.payloads), [])
  {
    hide RowFromFinishNode, NewPayloads, WithPayloads, CapturedFinish, PayloadsOfNode;
    FinishKeepsRun(env, d);
    if d.node in db.nodes {
      PatchOfLoadedNode(db.nodes[d.node], FinishedNode(env, db.nodes[d.node], CapturedFinish(env, d)));
    }
  }

  lemma ErrorNodeEffect(env: Env, db: Db, d: NodeError)
    requires d.node in db.nodes || d.run in db.runs
    ensures var e := CapturedError(env, d);
      var purged := if ErrorIsMetadataOnly(env, d) then PayloadsOfNode(db, d.node) else {};
      var row := if d.node in db.nodes then FailedNode(env, db.nodes[d.node], e, ErrorIsMetadataOnly(env, d))
                 else RowFromErrorNode(env, e);
      Undisturbed(env, db, ErrorNode(d)) == Effect(
        db.(nodes := db.nodes[d.node := row], payloads := db.payloads - purged), Done,
        RequestsForNode(db, d.run, row.nodeType))
  {
    if d.node in db.nodes {
      PatchOfLoadedNode(
        db.nodes[d.node], FailedNode(env, db.nodes[d.node], CapturedError(env, d), ErrorIsMetadataOnly(env, d)));
    }
  }

  class Store {
    const env: Env
    var runs: map<RunId, RunRow>
    var nodes: map<NodeId, NodeRow>
    var payloads: map<PayloadId, Payload>
    var requested: seq<RunId>

    constructor (env: Env)
      ensures this.env == env && Snapshot() == Db(map[], map[], map[]) && requested == []
    {
      this.env := env;
      runs, nodes, payloads, requested := map[], map[], map[], [];
    }

    function Snapshot(): Db
      reads this
    {
      Db(runs, nodes, payloads)
    }

    /** The missing records, built one by one; the caller adds them when it commits. */
    method InsertTracePayloads(stored: set<PayloadId>, run: RunId, records: seq<PayloadRecord>)
      returns (added: seq<(PayloadId, Payload)>)
      ensures added == NewPayloads(stored, run, records)
    {
      added := [];
      for i := 0 to |records|
        invariant added == NewPayloads(stored, run, records[..i])
      {
        assert records[..i + 1][..i] == records[..i];
        var record := records[i];
        if record.id.None? {
          continue;
        }
        if record.id.value in stored {
          continue;
        }
        added := added + [(record.id.value, Payload(run, record.nodeId, record.body))];
      }
      assert records[..|records|] == records;
    }

    /** Marks the run's successful LLM nodes with the downstream verdict, one row at a time. */
    method FinalizeLlmDownstreamStatus(run: RunId, verdict: string)
      modifies this`nodes
      ensures nodes == PatchedMetadata(old(nodes), DownstreamMetadata(env, old(Snapshot()), run, verdict))
    {
      var metadata := DownstreamMetadata(env, Snapshot(), run, verdict);
      var todo := metadata.Keys;
      while todo != {}
        invariant todo <= metadata.Keys
        invariant nodes == PatchedMetadata(old(nodes), metadata - todo)
      {
        var n :| n in todo;
        nodes := nodes[n := nodes[n].(traceMetadata := env.downstream(nodes[n].traceMetadata, verdict))];
        todo := todo - {n};
      }
      assert metadata - {} == metadata;
    }

    /** Sends the record request of a run that is terminal by now. */
    method ScheduleModelRoutingRunRecord(run: RunId)
      modifies this`requested
      ensures requested == old(requested) + if RunTerminal(Snapshot(), run) then [run] else []
    {
      if run in runs && runs[run].status != RunRunning {
        requested := requested + [run];
      }
    }

    /** Adds payload rows to a table in which they are known to fit. */
    method AddPayloads(added: seq<(PayloadId, Payload)>)
      modifies this`payloads
      ensures payloads == WithPayloads(old(payloads), added)
    {
      for i := 0 to |added|
        invariant payloads == WithPayloads(old(payloads), added[..i])
      {
        assert added[..i + 1][..i] == added[..i];
        payloads := payloads[added[i].0 := added[i].1];
      }
      assert added[..|added|] == added;
    }

    /** Commits the rows written so far together with `added`, or rolls everything back to `before`. */
    method CommitOrRollBack(before: Db, added: seq<(PayloadId, Payload)>) returns (outcome: Outcome)
      modifies this`runs, this`nodes, this`payloads
      ensures var e := Written(before, old(Snapshot()), added, []);
        Snapshot() == e.db && outcome == e.outcome
    {
      if !PayloadsFit(Snapshot(), added) {
        runs, nodes, payloads := before.runs, before.nodes, before.payloads;
        return Retry;
      }
      AddPayloads(added);
      outcome := Done;
    }

    method CreateRunLog(d: RunCreation) returns (outcome: Outcome)
      modifies this
      ensures var e := Undisturbed(env, old(Snapshot()), CreateRun(d));
        && Snapshot() == e.db && outcome == e.outcome && requested == old(requested) + e.requested
    {
      var added := InsertTracePayloads(payloads.Keys, d.run, d.payloads);
      if d.run in runs {
        return Duplicate;
      }
      if !PayloadsFit(Snapshot().(runs := runs[d.run := RowFromCreateRun(d)]), added) {
        return Retry;
      }
      runs := runs[d.run := RunRow(RunRunning, OrEmpty(d.inputs), Null, None, d.startedAt, None, None)];
      AddPayloads(added);
      outcome := Done;
    }

    method UpdateRunLogFinish(d: RunFinish) returns (outcome: Outcome)
      modifies this
      ensures var e := Undisturbed(env, old(Snapshot()), FinishRun(d));
        && Snapshot() == e.db && outcome == e.outcome && requested == old(requested) + e.requested
    {
      hide Undisturbed, NewPayloads, WithPayloads, DownstreamMetadata, PatchedMetadata, Written, RunTerminal;
      if d.run !in runs {
        NoFinishWithoutRun(env, Snapshot(), d);
        assert requested + [] == requested;
        return Waiting;
      }
      var before := Snapshot();
      FinishRunEffect(env, before, d);
      FinalizeLlmDownstreamStatus(d.run, "passed");
      var row := FinishedRunRow(d);
      runs := runs[d.run := row];
      var added := InsertTracePayloads(payloads.Keys, d.run, d.payloads);
      ghost var rows := Snapshot();
      outcome := CommitOrRollBack(before, added);
      WrittenIs(before, rows, added, [d.run]);
      if outcome == Done {
        StoredRunIsTerminal(Snapshot(), d.run);
        ScheduleModelRoutingRunRecord(d.run);
      }
    }

    /** The stored row with the assignments of the finish handler. */
    method FinishedRunRow(d: RunFinish) returns (row: RunRow)
      requires d.run in runs
      ensures var run := runs[d.run];
        row == RunRow(
          RunSuccess, run.inputs, d.outputs, None, run.startedAt, Some(d.finishedAt), Some(d.finishedAt - run.startedAt))
    {
      row := runs[d.run];
      row := row.(status := RunSuccess);
      row := row.(outputs := d.outputs);
      row := row.(errorMessage := None);
      row := row.(finishedAt := Some(d.finishedAt));
      row := row.(duration := Some(d.finishedAt - row.startedAt));
    }

    method UpdateRunLogError(d: RunError) returns (outcome: Outcome)
      modifies this
      ensures var e := Undisturbed(env, old(Snapshot()), ErrorRun(d));
        && Snapshot() == e.db && outcome == e.outcome && requested == old(requested) + e.requested
    {
      if d.run !in runs {
        return Waiting;
      }
      var loaded := runs[d.run];
      var row := loaded.(status := RunFailed);
      row := row.(errorMessage := Some(d.error));
      row := row.(finishedAt := Some(d.finishedAt));
      row := row.(duration := Some(d.finishedAt - row.startedAt));
      FinalizeLlmDownstreamStatus(d.run, "failed");
      runs := runs[d.run := row];
      PatchOfLoadedRun(loaded, row);
      ScheduleModelRoutingRunRecord(d.run);
      outcome := Done;
    }

    method CreateNodeLog(d: NodeCreation) returns (outcome: Outcome)
      modifies this
      ensures var e := Undisturbed(env, old(Snapshot()), CreateNode(d));
        && Snapshot() == e.db && outcome == e.outcome && requested == old(requested) + e.requested
    {
      var data := d;
      if d.run in runs { CreateNodeEffect(env, Snapshot(), d); }
      if env.deferred(Some(d.nodeType)) || env.metadataOnly(Some(d.nodeType), d.processData, d.traceMetadata) {
        data := data.(inputs := EMPTY, processData := EMPTY, payloads := []);
      }
      if d.run !in runs {
        return Waiting;
      }
      var added := InsertTracePayloads(payloads.Keys, d.run, data.payloads);
      if d.node in nodes {
        var existing := nodes[d.node];
        if !env.metadataOnly(Some(existing.nodeType), existing.processData, existing.traceMetadata) {
          if !PayloadsFit(Snapshot(), added) {
            return Retry;
          }
          AddPayloads(added);
        }
        return Duplicate;
      }
      if !PayloadsFit(Snapshot().(nodes := nodes[d.node := RowFromCreateNode(data)]), added) {
        return Retry;
      }
      nodes := nodes[d.node := RowFromCreateNode(data)];
      AddPayloads(added);
      if nodes[d.node].nodeType == "llmNode" {
        ScheduleModelRoutingRunRecord(d.run);
      }
      outcome := Done;
    }

    /** Deletes the payload rows of one node. */
    method DeleteNodeTracePayloads(node: NodeId)
      modifies this`payloads
      ensures payloads == old(payloads) - PayloadsOfNode(old(Snapshot()), node)
    {
      payloads := payloads - set p | p in payloads && payloads[p].nodeId == Some(node);
    }

    method UpdateNodeLogFinish(d: NodeFinish) returns (outcome: Outcome)
      modifies this
      ensures var e := Undisturbed(env, old(Snapshot()), FinishNode(d));
        && Snapshot() == e.db && outcome == e.outcome && requested == old(requested) + e.requested
    {
      hide Undisturbed, FinishedNode, RowFromFinishNode, NewPayloads, WithPayloads;
      if d.node !in nodes && d.run !in runs {
        NothingWithoutRun(env, Snapshot(), d);
        assert requested + [] == requested;
        return Waiting;
      }
      var before := Snapshot();
      var data := d;
      var summary := env.providerSummary(d.nodeType, d.processData, d.traceMetadata);
      if summary.Some? {
        data := data.(inputs := EMPTY, processData := EMPTY, outputs := summary.value);
        data := data.(payloads := env.providerRecords(d.payloads, d.nodeType, d.processData, d.traceMetadata));
      }
      FinishNodeEffect(env, before, d);
      var row := FinishedRow(data);
      nodes := nodes[d.node := row];
      if summary.Some? {
        DeleteNodeTracePayloads(d.node);
      }
      assert payloads - {} == payloads;
      var added := InsertTracePayloads(payloads.Keys, d.run, data.payloads);
      outcome := CommitOrRollBack(before, added);
    }

    /** The row to store for a finish: a new one, or the stored one with the assignments of the handler. */
    method FinishedRow(d: NodeFinish) returns (row: NodeRow)
      ensures row == if d.node in nodes then FinishedNode(env, nodes[d.node], d) else RowFromFinishNode(env, d)
    {
      if d.node !in nodes {
        return RowFromFinishNode(env, d);
      }
      row := nodes[d.node];
      row := row.(status := NodeSuccess);
      row := row.(outputs := NormalizedOutputs(d.outputs));
      row := row.(inputs := OrEmpty(d.inputs), processData := OrEmpty(d.processData));
      row := row.(finishedAt := Some(d.finishedAt));
      row := row.(duration := OrNumber(d.duration, Some(d.finishedAt - row.startedAt)));
      row := row.(traceMetadata := SpanMetadata(env, row, d.nodeType, d.traceMetadata));
      row := row.(redactionApplied := row.redactionApplied || d.redaction);
      row := row.(piiDetected := row.piiDetected || d.pii);
      row := row.(sequence := OrNumber(row.sequence, d.sequence));
      row := row.(retryCount := if d.retryCount != 0 then d.retryCount else row.retryCount);
    }

    method UpdateNodeLogError(d: NodeError) returns (outcome: Outcome)
      modifies this
      ensures var e := Undisturbed(env, old(Snapshot()), ErrorNode(d));
        && Snapshot() == e.db && outcome == e.outcome && requested == old(requested) + e.requested
    {
      hide Undisturbed, FailedNode, RowFromErrorNode;
      if d.node !in nodes && d.run !in runs {
        NoErrorWithoutRun(env, Snapshot(), d);
        assert requested + [] == requested;
        return Waiting;
      }
      var before := Snapshot();
      var metadataOnly := env.deferred(d.nodeType) || env.metadataOnly(d.nodeType, d.processData, d.traceMetadata);
      var data := if metadataOnly then d.(inputs := EMPTY, processData := EMPTY) else d;
      ErrorNodeEffect(env, before, d);
      var row := FailedRow(data, metadataOnly);
      nodes := nodes[d.node := row];
      if metadataOnly {
        DeleteNodeTracePayloads(d.node);
      }
      assert payloads - {} == payloads;
      if row.nodeType == "llmNode" {
        ScheduleModelRoutingRunRecord(d.run);
      }
      outcome := Done;
    }

    /** The row to store for an error: a new one, or the stored one with the assignments of the handler. */
    method FailedRow(d: NodeError, metadataOnly: bool) returns (row: NodeRow)
      ensures row == if d.node in nodes then FailedNode(env, nodes[d.node], d, metadataOnly) else RowFromErrorNode(env, d)
    {
      if d.node !in nodes {
        return RowFromErrorNode(env, d);
      }
      row := nodes[d.node];
      row := row.(status := NodeFailed);
      if metadataOnly {
        row := row.(inputs := EMPTY, processData := EMPTY);
      }
      row := row.(errorMessage := Some(d.error), finishedAt := Some(d.finishedAt));
      row := row.(duration := OrNumber(d.duration, Some(d.finishedAt - row.startedAt)));
      row := row.(traceMetadata := SpanMetadata(env, row, d.nodeType, d.traceMetadata));
      row := row.(sequence := OrNumber(row.sequence, d.sequence));
      row := row.(retryCount := if d.retryCount != 0 then d.retryCount else row.retryCount);
    }
  }

  /** Nothing happened between load and commit: every assigned value is written. */
  lemma PatchOfLoadedRun(row: RunRow, desired: RunRow)
    ensures PatchedRun(row, row, desired) == desired
  {
  }

  lemma PatchOfLoadedNode(row: NodeRow, desired: NodeRow)
    ensures PatchedNode(row, row, desired) == desired
  {
  }
}
