/**
 * Delivery order and duplication do not matter for what a node row finally says.
 */
module LogConvergence {
  import opened Wrappers
  import opened LogProtocol
  import opened LogSafety

  /** The columns that converge. */
  datatype View = View(status: NodeStatus, inputs: Json, processData: Json, outputs: Json, finishedAt: Option<int>)

  function ViewOf(row: NodeRow): View {
    View(row.status, row.inputs, row.processData, row.outputs, row.finishedAt)
  }

  function CreatedView(c: NodeCreation): View {
    View(NodeRunning, OrEmpty(c.inputs), OrEmpty(c.processData), Null, None)
  }

  function FinishedView(f: NodeFinish): View {
    View(NodeSuccess, OrEmpty(f.inputs), OrEmpty(f.processData), NormalizedOutputs(f.outputs), Some(f.finishedAt))
  }

  function Ids(records: seq<PayloadRecord>): set<PayloadId> {
    set r | r in records && r.id.Some? :: r.id.value
  }

  function AddedIds(added: seq<(PayloadId, Payload)>): set<PayloadId> {
    set a | a in added :: a.0
  }

  /** The payload records that a message asks to store. */
  function Records(env: Env, m: Message): seq<PayloadRecord> {
    match m
    case CreateRun(d) => d.payloads
    case FinishRun(d) => d.payloads
    case ErrorRun(_) => []
    case CreateNode(d) => CapturedCreate(env, d).payloads
    case FinishNode(d) => CapturedFinish(env, d).payloads
    case ErrorNode(_) => []
  }

  /** The two types a row of the node may have. */
  predicate IsTypeOf(c: NodeCreation, f: NodeFinish, nodeType: string) {
    nodeType == c.nodeType || nodeType == NodeTypeOr(f.nodeType, "unknown")
  }

  predicate IsProcessDataOf(c: NodeCreation, f: NodeFinish, processData: Json) {
    processData == OrEmpty(c.processData) || processData == OrEmpty(f.processData)
  }

  /** The metadata that may get into a row of the node are all `calm`. */
  ghost predicate MetadataStaysCalm(env: Env, c: NodeCreation, f: NodeFinish, calm: Json -> bool) {
    && calm(Null)
    && (forall t :: IsTypeOf(c, f, t) ==> calm(env.sanitizeSpan(t, OrEmpty(f.traceMetadata))))
    && (forall md :: calm(md) ==> calm(env.downstream(md, "passed")) && calm(env.downstream(md, "failed")))
  }

  /** No provider capture at any row that a duplicate create can meet. */
  ghost predicate NoCaptureOfRows(env: Env, c: NodeCreation, f: NodeFinish, calm: Json -> bool) {
    forall t, pd, md :: IsTypeOf(c, f, t) && IsProcessDataOf(c, f, pd) && calm(md) ==>
      !env.metadataOnly(Some(t), pd, md)
  }

  predicate BelongTo(node: NodeId, records: seq<PayloadRecord>) {
    forall r :: r in records && r.id.Some? ==> r.nodeId == Some(node)
  }

  /** One create and one finish of the same node, whose payloads are its own, and no provider capture of either. */
  ghost predicate Pair(env: Env, c: NodeCreation, f: NodeFinish, calm: Json -> bool) {
    && c.node == f.node
    && CapturedCreate(env, c) == c && FinishSummary(env, f).None?
    && MetadataStaysCalm(env, c, f, calm) && NoCaptureOfRows(env, c, f, calm)
    && BelongTo(c.node, c.payloads) && BelongTo(f.node, f.payloads)
  }

  function PairIds(c: NodeCreation, f: NodeFinish): set<PayloadId> { Ids(c.payloads) + Ids(f.payloads) }

  /** Any other message leaves the node and the payload ids of the pair alone. */
  predicate Elsewhere(env: Env, c: NodeCreation, f: NodeFinish, m: Message) {
    && NodeOf(m) != Some(c.node)
    && forall r :: r in Records(env, m) && r.id.Some? ==> r.nodeId != Some(c.node) && r.id.value !in PairIds(c, f)
  }

  predicate OnlyPair(env: Env, c: NodeCreation, f: NodeFinish, m: Message) {
    m == CreateNode(c) || m == FinishNode(f) || Elsewhere(env, c, f, m)
  }

  predicate OnlyPairDelivered(env: Env, c: NodeCreation, f: NodeFinish, s: State) {
    forall h :: h in s.handlers ==> OnlyPair(env, c, f, s.handlers[h].message)
  }

  // ----- Payload bookkeeping -----

  lemma {:induction false} NewPayloadsCover(stored: set<PayloadId>, run: RunId, records: seq<PayloadRecord>)
    ensures Ids(records) <= stored + AddedIds(NewPayloads(stored, run, records))
    ensures forall a :: a in NewPayloads(stored, run, records) ==>
      exists r :: r in records && r.id == Some(a.0) && a.1 == Payload(run, r.nodeId, r.body)
  {
    if records != [] {
      var init, last := records[..|records| - 1], records[|records| - 1];
      NewPayloadsCover(stored, run, init);
      assert records == init + [last];
      assert Ids(records) == Ids(init) + (if last.id.Some? then {last.id.value} else {});
      var before, all := NewPayloads(stored, run, init), NewPayloads(stored, run, records);
      assert AddedIds(before) <= AddedIds(all);
      if last.id.Some? && last.id.value !in stored {
        assert all[|before|] == (last.id.value, Payload(run, last.nodeId, last.body));
        assert all[|before|] in all;
      }
      forall a | a in all
        ensures exists r :: r in records && r.id == Some(a.0) && a.1 == Payload(run, r.nodeId, r.body)
      {
        if a in before {
          var r :| r in init && r.id == Some(a.0) && a.1 == Payload(run, r.nodeId, r.body);
          assert r in records;
        } else {
          assert last in records;
        }
      }
    }
  }

  lemma {:induction false} WithPayloadsContents(payloads: map<PayloadId, Payload>, added: seq<(PayloadId, Payload)>)
    ensures var r := WithPayloads(payloads, added);
      && r.Keys == payloads.Keys + AddedIds(added)
      && (forall p :: p in r && p !in AddedIds(added) ==> r[p] == payloads[p])
      && (forall p :: p in AddedIds(added) ==> (p, r[p]) in added)
  {
    if added != [] {
      var init, last := added[..|added| - 1], added[|added| - 1];
      WithPayloadsContents(payloads, init);
      assert added == init + [last];
      assert AddedIds(added) == AddedIds(init) + {last.0};
    }
  }

  // ----- The invariant -----

  predicate RowConverges(c: NodeCreation, f: NodeFinish, calm: Json -> bool, row: NodeRow) {
    && (ViewOf(row) == CreatedView(c) || ViewOf(row) == FinishedView(f))
    && IsTypeOf(c, f, row.nodeType) && calm(row.traceMetadata)
  }

  /** Stored payloads of the node are the pair's, and the pair's stored payloads are the node's. */
  predicate PayloadsConverge(c: NodeCreation, f: NodeFinish, db: Db) {
    forall p :: p in db.payloads ==> (p in PairIds(c, f) <==> db.payloads[p].nodeId == Some(c.node))
  }

  predicate DbConverges(c: NodeCreation, f: NodeFinish, calm: Json -> bool, db: Db) {
    && (c.node in db.nodes ==> RowConverges(c, f, calm, db.nodes[c.node]))
    && PayloadsConverge(c, f, db)
  }

  /** A plan of a pair's handler adds the missing payloads of its message; any other plan stays clear of the pair. */
  predicate AddsConverge(env: Env, c: NodeCreation, f: NodeFinish, db: Db, m: Message, added: seq<(PayloadId, Payload)>) {
    if Elsewhere(env, c, f, m) then
      forall a :: a in added ==> a.0 !in PairIds(c, f) && a.1.nodeId != Some(c.node)
    else
      && Ids(Records(env, m)) <= db.payloads.Keys + AddedIds(added)
      && forall a :: a in added ==> a.0 in PairIds(c, f) && a.1.nodeId == Some(c.node)
  }

  predicate PlanConverges(
      env: Env, c: NodeCreation, f: NodeFinish, calm: Json -> bool, db: Db, m: Message, plan: Plan)
  {
    && AddsConverge(env, c, f, db, m, plan.added)
    && (plan.InsertNode? ==>
      && plan.purged !! PairIds(c, f)
      && (plan.node == c.node ==>
        && !Elsewhere(env, c, f, m) && RowConverges(c, f, calm, plan.row)
        && (m == FinishNode(f) ==> ViewOf(plan.row) == FinishedView(f))))
    && (plan.UpdateNode? ==>
      && plan.purged !! PairIds(c, f)
      && (plan.node == c.node ==>
        && m == FinishNode(f) && c.node in db.nodes && plan.desired.nodeType == plan.loaded.nodeType
        && RowConverges(c, f, calm, plan.loaded) && ViewOf(plan.desired) == FinishedView(f)
        && calm(plan.desired.traceMetadata)
        && (ViewOf(plan.loaded) == FinishedView(f) ==> ViewOf(db.nodes[c.node]) == FinishedView(f))))
    && (plan.KeepPayloads? ==> c.node in db.nodes || Elsewhere(env, c, f, m))
    && (plan.InsertRun? || plan.UpdateRun? ==> Elsewhere(env, c, f, m))
    && (plan.UpdateRun? && c.node in plan.metadata ==> calm(plan.metadata[c.node].desired))
    && (m == FinishNode(f) ==> !plan.KeepPayloads?)
    && (!Elsewhere(env, c, f, m) && (plan.InsertNode? || plan.UpdateNode?) ==> plan.node == c.node)
  }

  predicate HandlerConverges(env: Env, c: NodeCreation, f: NodeFinish, calm: Json -> bool, db: Db, handler: Handler) {
    && (handler.phase.Planned? ==> PlanConverges(env, c, f, calm, db, handler.message, handler.phase.plan))
    && (handler.phase.Recovering? && handler.message != CreateNode(c) ==> Elsewhere(env, c, f, handler.message))
    && (Through(handler.phase) && !Elsewhere(env, c, f, handler.message) ==> Applied(env, c, f, db, handler.message))
  }

  /** What an acknowledged create or finish of the pair has left in the database. */
  predicate Applied(env: Env, c: NodeCreation, f: NodeFinish, db: Db, m: Message) {
    && c.node in db.nodes && Ids(Records(env, m)) <= db.payloads.Keys
    && (m == FinishNode(f) ==> ViewOf(db.nodes[c.node]) == FinishedView(f))
  }

  predicate Converges(env: Env, c: NodeCreation, f: NodeFinish, calm: Json -> bool, s: State) {
    && DbConverges(c, f, calm, s.db)
    && forall h :: h in s.handlers ==> HandlerConverges(env, c, f, calm, s.db, s.handlers[h])
  }

  /** What any commit leaves intact for the pair. */
  predicate Advances(c: NodeCreation, f: NodeFinish, before: Db, after: Db) {
    && (c.node in before.nodes ==>
      && c.node in after.nodes
      && (ViewOf(before.nodes[c.node]) == FinishedView(f) ==> ViewOf(after.nodes[c.node]) == FinishedView(f)))
    && forall p :: p in PairIds(c, f) && p in before.payloads ==> p in after.payloads
  }

  lemma AdvanceKeepsHandler(env: Env, c: NodeCreation, f: NodeFinish, calm: Json -> bool, before: Db, after: Db, handler: Handler)
    requires OnlyPair(env, c, f, handler.message) && Pair(env, c, f, calm)
    requires Advances(c, f, before, after) && HandlerConverges(env, c, f, calm, before, handler)
    ensures HandlerConverges(env, c, f, calm, after, handler)
  {
    var m := handler.message;
    if !Elsewhere(env, c, f, m) {
      assert Ids(Records(env, m)) <= PairIds(c, f);
    }
  }

  lemma CreatePlanConverges(env: Env, c: NodeCreation, f: NodeFinish, calm: Json -> bool, db: Db)
    requires Pair(env, c, f, calm) && !Elsewhere(env, c, f, CreateNode(c)) && ReadPlan(env, db, CreateNode(c)).Some?
    ensures PlanConverges(env, c, f, calm, db, CreateNode(c), ReadPlan(env, db, CreateNode(c)).value)
  {
    hide NoCaptureOfRows;
    ReadPlanAdds(env, db, CreateNode(c));
  }

  lemma FinishPlanConverges(env: Env, c: NodeCreation, f: NodeFinish, calm: Json -> bool, db: Db)
    requires Pair(env, c, f, calm) && !Elsewhere(env, c, f, FinishNode(f)) && DbConverges(c, f, calm, db)
    requires ReadPlan(env, db, FinishNode(f)).Some?
    ensures PlanConverges(env, c, f, calm, db, FinishNode(f), ReadPlan(env, db, FinishNode(f)).value)
  {
    hide NoCaptureOfRows, NewPayloads;
    ReadPlanAdds(env, db, FinishNode(f));
  }

  lemma OtherPlanConverges(env: Env, c: NodeCreation, f: NodeFinish, calm: Json -> bool, db: Db, m: Message)
    requires Pair(env, c, f, calm) && Elsewhere(env, c, f, m) && DbConverges(c, f, calm, db)
    requires ReadPlan(env, db, m).Some?
    ensures PlanConverges(env, c, f, calm, db, m, ReadPlan(env, db, m).value)
  {
    hide NoCaptureOfRows, NewPayloads;
    ReadPlanAdds(env, db, m);
    var plan := ReadPlan(env, db, m).value;
    assert plan.InsertNode? || plan.UpdateNode? ==> plan.purged <= PayloadsOfNode(db, plan.node);
  }

  lemma ReadPlanConverges(env: Env, c: NodeCreation, f: NodeFinish, calm: Json -> bool, db: Db, m: Message)
    requires Pair(env, c, f, calm) && OnlyPair(env, c, f, m) && DbConverges(c, f, calm, db)
    requires ReadPlan(env, db, m).Some?
    ensures PlanConverges(env, c, f, calm, db, m, ReadPlan(env, db, m).value)
  {
    hide Pair, Elsewhere, DbConverges, ReadPlan, PlanConverges;
    if Elsewhere(env, c, f, m) {
      OtherPlanConverges(env, c, f, calm, db, m);
    } else if m == CreateNode(c) {
      CreatePlanConverges(env, c, f, calm, db);
    } else {
      FinishPlanConverges(env, c, f, calm, db);
    }
  }

  /** Read plans add exactly the missing records of the message. */
  lemma ReadPlanAdds(env: Env, db: Db, m: Message)
    requires ReadPlan(env, db, m).Some?
    ensures var added := ReadPlan(env, db, m).value.added;
      && (forall a :: a in added ==>
        exists r :: r in Records(env, m) && r.id == Some(a.0) && a.1.nodeId == r.nodeId)
      && Ids(Records(env, m)) <= db.payloads.Keys + AddedIds(added)
  {
    match m
    case CreateRun(d) => NewPayloadsCover(db.payloads.Keys, d.run, d.payloads);
    case FinishRun(d) => NewPayloadsCover(db.payloads.Keys, d.run, d.payloads);
    case ErrorRun(_) =>
    case CreateNode(d) => NewPayloadsCover(db.payloads.Keys, d.run, CapturedCreate(env, d).payloads);
    case FinishNode(d) =>
      var purged := if FinishSummary(env, d).Some? then PayloadsOfNode(db, d.node) else {};
      NewPayloadsCover(db.payloads.Keys - purged, d.run, CapturedFinish(env, d).payloads);
    case ErrorNode(_) =>
  }

  lemma CommitConverges(env: Env, c: NodeCreation, f: NodeFinish, calm: Json -> bool, db: Db, m: Message, plan: Plan)
    requires Pair(env, c, f, calm) && OnlyPair(env, c, f, m) && DbConverges(c, f, calm, db)
    requires PlanConverges(env, c, f, calm, db, m, plan) && !Conflict(db, plan)
    ensures var after := Committed(db, plan);
      && DbConverges(c, f, calm, after) && Advances(c, f, db, after)
      && (!Elsewhere(env, c, f, m) ==> Applied(env, c, f, after, m))
  {
    var rows, after := RowsAfter(db, plan), Committed(db, plan);
    WithPayloadsContents(rows.payloads, plan.added);
    RowsConverge(env, c, f, calm, db, m, plan);
    forall p | p in after.payloads ensures p in PairIds(c, f) <==> after.payloads[p].nodeId == Some(c.node) {
      if p in AddedIds(plan.added) {
        assert (p, after.payloads[p]) in plan.added;
      } else {
        assert after.payloads[p] == db.payloads[p];
      }
    }
    assert rows.payloads.Keys <= after.payloads.Keys;
    if !Elsewhere(env, c, f, m) {
      assert Ids(Records(env, m)) <= PairIds(c, f);
    }
  }

  lemma RowsConverge(env: Env, c: NodeCreation, f: NodeFinish, calm: Json -> bool, db: Db, m: Message, plan: Plan)
    requires Pair(env, c, f, calm) && OnlyPair(env, c, f, m) && DbConverges(c, f, calm, db)
    requires PlanConverges(env, c, f, calm, db, m, plan) && !Conflict(db, plan)
    ensures var rows := RowsAfter(db, plan);
      && DbConverges(c, f, calm, rows) && Advances(c, f, db, rows)
      && (forall p :: p in rows.payloads ==> p in db.payloads && rows.payloads[p] == db.payloads[p])
      && (!Elsewhere(env, c, f, m) ==> c.node in rows.nodes)
      && (m == FinishNode(f) ==> ViewOf(rows.nodes[c.node]) == FinishedView(f))
  {
    hide MetadataStaysCalm, NoCaptureOfRows, AddsConverge, PayloadsFit;
  }

  lemma ConflictConverges(env: Env, c: NodeCreation, f: NodeFinish, calm: Json -> bool, db: Db, handler: Handler)
    requires OnlyPair(env, c, f, handler.message) && handler.phase.Planned?
    requires HandlerConverges(env, c, f, calm, db, handler)
    ensures HandlerConverges(env, c, f, calm, db, handler.(phase := AfterConflict(handler.message, handler.phase.plan)))
  {
  }

  lemma StepConverges(env: Env, c: NodeCreation, f: NodeFinish, calm: Json -> bool, s: State, a: Action)
    requires Enabled(s, a) && Converges(env, c, f, calm, s)
    requires Pair(env, c, f, calm) && OnlyPairDelivered(env, c, f, Step(env, s, a))
    ensures OnlyPairDelivered(env, c, f, s) && Converges(env, c, f, calm, Step(env, s, a))
  {
    hide DbConverges, PlanConverges, Applied, Pair, Elsewhere, Advances, Committed, Conflict;
    HandlersKeepMessages(env, s, a);
    var s' := Step(env, s, a);
    match a
    case Begin(h) => BeginConverges(env, c, f, calm, s, h);
    case Commit(h) =>
      var m, plan := s.handlers[h].message, s.handlers[h].phase.plan;
      if !Conflict(s.db, plan) {
        CommitConverges(env, c, f, calm, s.db, m, plan);
        forall o | o in s'.handlers ensures HandlerConverges(env, c, f, calm, s'.db, s'.handlers[o]) {
          if o != h { AdvanceKeepsHandler(env, c, f, calm, s.db, s'.db, s.handlers[o]); }
        }
      } else {
        ConflictConverges(env, c, f, calm, s.db, s.handlers[h]);
      }
    case _ =>
  }

  lemma StoredRowIsNotCaptured(env: Env, c: NodeCreation, f: NodeFinish, calm: Json -> bool, row: NodeRow)
    requires Pair(env, c, f, calm) && RowConverges(c, f, calm, row)
    ensures !env.metadataOnly(Some(row.nodeType), row.processData, row.traceMetadata)
  {
    assert IsProcessDataOf(c, f, row.processData);
  }

  /** The plan of a duplicate create of the pair: the payloads that are still missing. */
  lemma KeptPayloadsConverge(env: Env, c: NodeCreation, f: NodeFinish, calm: Json -> bool, db: Db)
    requires Pair(env, c, f, calm) && c.node in db.nodes && !Elsewhere(env, c, f, CreateNode(c))
    ensures var added := NewPayloads(db.payloads.Keys, c.run, c.payloads);
      PlanConverges(env, c, f, calm, db, CreateNode(c), KeepPayloads(added))
  {
    NewPayloadsCover(db.payloads.Keys, c.run, c.payloads);
  }

  /** The plan of any other duplicate create. */
  lemma OtherKeptPayloadsConverge(env: Env, c: NodeCreation, f: NodeFinish, calm: Json -> bool, db: Db, d: NodeCreation)
    requires Pair(env, c, f, calm) && Elsewhere(env, c, f, CreateNode(d))
    ensures var added := NewPayloads(db.payloads.Keys, d.run, CapturedCreate(env, d).payloads);
      PlanConverges(env, c, f, calm, db, CreateNode(d), KeepPayloads(added))
  {
    NewPayloadsCover(db.payloads.Keys, d.run, CapturedCreate(env, d).payloads);
  }

  lemma RecoveryConverges(env: Env, c: NodeCreation, f: NodeFinish, calm: Json -> bool, s: State, h: HandlerId)
    requires Pair(env, c, f, calm) && OnlyPairDelivered(env, c, f, s)
    requires Enabled(s, Begin(h)) && s.handlers[h].phase.Recovering? && Converges(env, c, f, calm, s)
    ensures HandlerConverges(env, c, f, calm, s.db, Step(env, s, Begin(h)).handlers[h])
  {
    hide PlanConverges, Applied, RowConverges, PayloadsConverge, MetadataStaysCalm, NoCaptureOfRows;
    hide NewPayloads, Elsewhere, CapturedCreate, FinishSummary;
    var m := s.handlers[h].message;
    assert OnlyPair(env, c, f, m) && HandlerConverges(env, c, f, calm, s.db, s.handlers[h]);
    if Elsewhere(env, c, f, m) {
      if m.CreateNode? {
        OtherKeptPayloadsConverge(env, c, f, calm, s.db, m.creation);
      }
    } else if c.node in s.db.nodes {
      StoredRowIsNotCaptured(env, c, f, calm, s.db.nodes[c.node]);
      KeptPayloadsConverge(env, c, f, calm, s.db);
    }
  }

  lemma BeginConverges(env: Env, c: NodeCreation, f: NodeFinish, calm: Json -> bool, s: State, h: HandlerId)
    requires Pair(env, c, f, calm) && OnlyPairDelivered(env, c, f, s)
    requires Enabled(s, Begin(h)) && Converges(env, c, f, calm, s)
    ensures Converges(env, c, f, calm, Step(env, s, Begin(h)))
  {
    hide DbConverges, PlanConverges, Applied, OnlyPair, Pair, ReadPlan, Elsewhere;
    var m := s.handlers[h].message;
    assert OnlyPair(env, c, f, m) && HandlerConverges(env, c, f, calm, s.db, s.handlers[h]);
    if s.handlers[h].phase.Recovering? {
      RecoveryConverges(env, c, f, calm, s, h);
    } else if ReadPlan(env, s.db, m).Some? {
      ReadPlanConverges(env, c, f, calm, s.db, m);
    }
  }

  lemma {:induction false} ConvergesReached(env: Env, c: NodeCreation, f: NodeFinish, calm: Json -> bool, actions: seq<Action>)
    requires Pair(env, c, f, calm) && OnlyPairDelivered(env, c, f, Reached(env, actions))
    ensures Converges(env, c, f, calm, Reached(env, actions))
  {
    if actions != [] {
      var init, a := actions[..|actions| - 1], actions[|actions| - 1];
      HandlersKeepMessages(env, Reached(env, init), a);
      ConvergesReached(env, c, f, calm, init);
      if Enabled(Reached(env, init), a) {
        StepConverges(env, c, f, calm, Reached(env, init), a);
      }
    }
  }

  /**
   * Any order, duplication and interleaving of one create and one finish of a plain node,
   * amid any other traffic, ends with the row of the finish and exactly the payload ids of
   * both messages, once each has been acknowledged.
   */
  lemma OrderDoesNotMatter(
      env: Env, c: NodeCreation, f: NodeFinish, calm: Json -> bool, actions: seq<Action>, created: HandlerId,
      finished: HandlerId)
    requires Pair(env, c, f, calm) && OnlyPairDelivered(env, c, f, Reached(env, actions))
    requires var s := Reached(env, actions);
      && created in s.handlers && s.handlers[created] == Handler(CreateNode(c), s.handlers[created].phase)
      && finished in s.handlers && s.handlers[finished] == Handler(FinishNode(f), s.handlers[finished].phase)
      && Through(s.handlers[created].phase) && Through(s.handlers[finished].phase)
    ensures var db := Reached(env, actions).db;
      && c.node in db.nodes && ViewOf(db.nodes[c.node]) == FinishedView(f)
      && PayloadsOfNode(db, c.node) == PairIds(c, f)
  {
    ConvergesReached(env, c, f, calm, actions);
    var s := Reached(env, actions);
    assert HandlerConverges(env, c, f, calm, s.db, s.handlers[created]);
    assert HandlerConverges(env, c, f, calm, s.db, s.handlers[finished]);
    assert PairIds(c, f) <= s.db.payloads.Keys;
  }
}
