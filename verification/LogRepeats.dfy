/**
 * Messages in which a payload id occurs twice.  The session does not flush between the
 * records of one message, so both are added, and the payload table refuses them together.
 */
module LogRepeats {
  import opened Wrappers
  import opened LogProtocol
  import opened LogSafety
  import opened LogConvergence
  import opened LogStore

  /** Two records with one id that is not stored yet. */
  predicate RepeatsNewId(stored: set<PayloadId>, records: seq<PayloadRecord>) {
    exists i, j | 0 <= i < j < |records| ::
      records[i].id.Some? && records[i].id == records[j].id && records[i].id.value !in stored
  }

  lemma RepeatsOneMore(stored: set<PayloadId>, init: seq<PayloadRecord>, last: PayloadRecord)
    ensures RepeatsNewId(stored, init + [last]) <==>
      RepeatsNewId(stored, init) || (last.id.Some? && last.id.value !in stored && last.id.value in Ids(init))
  {
    var all := init + [last];
    if RepeatsNewId(stored, init) {
      var i, j :| 0 <= i < j < |init| && init[i].id.Some? && init[i].id == init[j].id && init[i].id.value !in stored;
      assert all[i] == init[i] && all[j] == init[j];
    }
    if last.id.Some? && last.id.value !in stored && last.id.value in Ids(init) {
      var r :| r in init && r.id == last.id;
      var i :| 0 <= i < |init| && init[i] == r;
      assert all[i] == r && all[|init|] == last;
    }
    forall i, j | 0 <= i < j < |all| && all[i].id.Some? && all[i].id == all[j].id && all[i].id.value !in stored
      ensures RepeatsNewId(stored, init) || (last.id == all[i].id && all[i].id.value in Ids(init))
    {
      assert all[i] == init[i] && init[i] in init;
      if j < |init| {
        assert all[j] == init[j];
      }
    }
  }

  lemma DistinctOneMore(init: seq<(PayloadId, Payload)>, last: (PayloadId, Payload))
    ensures DistinctIds(init + [last]) <==> DistinctIds(init) && last.0 !in AddedIds(init)
  {
    var all := init + [last];
    if DistinctIds(all) {
      forall i, j | 0 <= i < j < |init| ensures init[i].0 != init[j].0 {
        assert all[i] == init[i] && all[j] == init[j];
      }
      forall a | a in init ensures a.0 != last.0 {
        var i :| 0 <= i < |init| && init[i] == a;
        assert all[i] == a && all[|init|] == last;
      }
    }
    if DistinctIds(init) && last.0 !in AddedIds(init) {
      forall i, j | 0 <= i < j < |all| ensures all[i].0 != all[j].0 {
        assert all[i] in init;
      }
    }
  }

  /** A new id counts as added exactly when some record has it. */
  lemma AddedIffRecorded(stored: set<PayloadId>, run: RunId, records: seq<PayloadRecord>, id: PayloadId)
    requires id !in stored
    ensures id in AddedIds(NewPayloads(stored, run, records)) <==> id in Ids(records)
  {
    NewPayloadsCover(stored, run, records);
    if id in AddedIds(NewPayloads(stored, run, records)) {
      var a :| a in NewPayloads(stored, run, records) && a.0 == id;
      var r :| r in records && r.id == Some(a.0);
    }
  }

  /** The payload rows to add have distinct ids exactly when no new id occurs twice in the message. */
  lemma {:induction false} DistinctIffNoRepeat(stored: set<PayloadId>, run: RunId, records: seq<PayloadRecord>)
    ensures DistinctIds(NewPayloads(stored, run, records)) <==> !RepeatsNewId(stored, records)
  {
    if records != [] {
      var init, last := records[..|records| - 1], records[|records| - 1];
      assert records == init + [last];
      DistinctIffNoRepeat(stored, run, init);
      NewPayloadsOneMore(stored, run, init, last);
      RepeatsOneMore(stored, init, last);
      hide NewPayloads, RepeatsNewId, DistinctIds;
      if last.id.Some? && last.id.value !in stored {
        AddedIffRecorded(stored, run, init, last.id.value);
        DistinctOneMore(NewPayloads(stored, run, init), (last.id.value, Payload(run, last.nodeId, last.body)));
      } else {
        assert NewPayloads(stored, run, init) + [] == NewPayloads(stored, run, init);
      }
    }
  }

  lemma NewPayloadsOneMore(stored: set<PayloadId>, run: RunId, init: seq<PayloadRecord>, last: PayloadRecord)
    ensures NewPayloads(stored, run, init + [last]) == NewPayloads(stored, run, init) +
      if last.id.Some? && last.id.value !in stored then [(last.id.value, Payload(run, last.nodeId, last.body))] else []
  {
    assert (init + [last])[..|init|] == init;
  }

  // ----- Such a message cannot be stored -----

  lemma FewerStoredRepeatMore(stored: set<PayloadId>, fewer: set<PayloadId>, records: seq<PayloadRecord>)
    requires fewer <= stored && RepeatsNewId(stored, records)
    ensures RepeatsNewId(fewer, records)
  {
    var i, j :| 0 <= i < j < |records| && records[i].id.Some? && records[i].id == records[j].id
      && records[i].id.value !in stored;
    assert records[i].id.value !in fewer;
  }

  /** Whatever the database is by then: the plan of such a message conflicts. */
  lemma RepeatedIdNeverCommits(env: Env, read: Db, met: Db, m: Message)
    requires RepeatsNewId(read.payloads.Keys, Records(env, m)) && ReadPlan(env, read, m).Some?
    ensures Conflict(met, ReadPlan(env, read, m).value)
  {
    hide RepeatsNewId, NewPayloads, DistinctIds;
    match m
    case CreateRun(d) => DistinctIffNoRepeat(read.payloads.Keys, d.run, d.payloads);
    case FinishRun(d) => DistinctIffNoRepeat(read.payloads.Keys, d.run, d.payloads);
    case CreateNode(d) => DistinctIffNoRepeat(read.payloads.Keys, d.run, CapturedCreate(env, d).payloads);
    case FinishNode(d) =>
      var purged := if FinishSummary(env, d).Some? then PayloadsOfNode(read, d.node) else {};
      FewerStoredRepeatMore(read.payloads.Keys, read.payloads.Keys - purged, CapturedFinish(env, d).payloads);
      DistinctIffNoRepeat(read.payloads.Keys - purged, d.run, CapturedFinish(env, d).payloads);
    case ErrorRun(_) => NothingRepeats(read.payloads.Keys);
    case ErrorNode(_) => NothingRepeats(read.payloads.Keys);
  }

  lemma NothingRepeats(stored: set<PayloadId>)
    ensures !RepeatsNewId(stored, [])
  {
  }

  /** The same for what a duplicate create tries to keep. */
  lemma RepeatedIdIsNotKept(env: Env, read: Db, met: Db, d: NodeCreation)
    requires RepeatsNewId(read.payloads.Keys, CapturedCreate(env, d).payloads)
    requires Recovered(env, read, CreateNode(d)).Planned?
    ensures Conflict(met, Recovered(env, read, CreateNode(d)).plan)
  {
    DistinctIffNoRepeat(read.payloads.Keys, d.run, CapturedCreate(env, d).payloads);
  }

  /** A duplicate create that is acknowledged before its payloads are looked at. */
  predicate IsAcknowledgedUnread(env: Env, db: Db, m: Message) {
    match m
    case CreateRun(d) => d.run in db.runs
    case CreateNode(d) =>
      && d.run in db.runs && d.node in db.nodes
      && env.metadataOnly(
           Some(db.nodes[d.node].nodeType), db.nodes[d.node].processData, db.nodes[d.node].traceMetadata)
    case _ => false
  }

  /**
   * An undisturbed message that repeats a new id changes nothing.  It is acknowledged exactly
   * when it is a duplicate create of a run, or of a node whose row is captured; every other
   * one is delivered again.
   */
  lemma RepeatedIdIsAcknowledgedIff(env: Env, db: Db, m: Message)
    requires RepeatsNewId(db.payloads.Keys, Records(env, m))
    ensures var e := Undisturbed(env, db, m);
      && e.db == db && e.requested == []
      && (e.outcome == Done || e.outcome == Duplicate <==> IsAcknowledgedUnread(env, db, m))
  {
    hide RepeatsNewId, NewPayloads, DistinctIds, Committed;
    if ReadPlan(env, db, m).Some? {
      RepeatedIdNeverCommits(env, db, db, m);
      if m.CreateNode? && Recovered(env, db, m).Planned? {
        RepeatedIdIsNotKept(env, db, db, m.creation);
      }
    }
  }

  // ----- The keys of the payload table -----

  /** Every stored payload has its run and, if it names one, its node. */
  ghost predicate PayloadsHaveParents(db: Db) {
    forall p :: p in db.payloads ==>
      && db.payloads[p].run in db.runs
      && (db.payloads[p].nodeId.Some? ==> db.payloads[p].nodeId.value in db.nodes)
  }

  function PurgedBy(plan: Plan): set<PayloadId> {
    if plan.InsertNode? || plan.UpdateNode? then plan.purged else {}
  }

  /** A commit leaves no payload without its parents, and changes none that it does not delete. */
  lemma CommitKeepsPayloads(db: Db, m: Message, plan: Plan)
    requires PayloadsHaveParents(db) && ParentsExist(db) && PlanFits(db, m, plan) && !Conflict(db, plan)
    ensures PayloadsHaveParents(Committed(db, plan))
    ensures forall p :: p in db.payloads && p !in PurgedBy(plan) ==>
      p in Committed(db, plan).payloads && Committed(db, plan).payloads[p] == db.payloads[p]
  {
    RowsKeepPayloads(db, m, plan);
    AddedHaveParents(RowsAfter(db, plan), plan.added);
  }

  /** The rows of a plan keep all payloads but the deleted ones, and remove no parent. */
  lemma RowsKeepPayloads(db: Db, m: Message, plan: Plan)
    requires PayloadsHaveParents(db) && PlanFits(db, m, plan) && !Conflict(db, plan)
    ensures PayloadsHaveParents(RowsAfter(db, plan))
    ensures forall p :: p in db.payloads && p !in PurgedBy(plan) ==>
      p in RowsAfter(db, plan).payloads && RowsAfter(db, plan).payloads[p] == db.payloads[p]
  {
    hide PatchedNode, PatchedRun, PayloadsFit;
  }

  lemma AddedHaveParents(rows: Db, added: seq<(PayloadId, Payload)>)
    requires PayloadsHaveParents(rows) && PayloadsFit(rows, added)
    ensures PayloadsHaveParents(rows.(payloads := WithPayloads(rows.payloads, added)))
    ensures forall p :: p in rows.payloads ==>
      p in WithPayloads(rows.payloads, added) && WithPayloads(rows.payloads, added)[p] == rows.payloads[p]
  {
    var after := WithPayloads(rows.payloads, added);
    WithPayloadsContents(rows.payloads, added);
    forall p | p in AddedIds(added)
      ensures p !in rows.payloads && after[p].run in rows.runs
      ensures after[p].nodeId.Some? ==> after[p].nodeId.value in rows.nodes
    {
      var i :| 0 <= i < |added| && added[i] == (p, after[p]);
    }
  }

  lemma {:induction false} PayloadsHaveParentsReached(env: Env, actions: seq<Action>)
    ensures PayloadsHaveParents(Reached(env, actions).db)
  {
    if actions != [] {
      var init, a := actions[..|actions| - 1], actions[|actions| - 1];
      var before := Reached(env, init);
      PayloadsHaveParentsReached(env, init);
      ExecKeepsInv(env, Start(), init);
      if Enabled(before, a) && a.Commit? && !Conflict(before.db, before.handlers[a.h].phase.plan) {
        assert HandlerFits(before.db, before.handlers[a.h]);
        CommitKeepsPayloads(before.db, before.handlers[a.h].message, before.handlers[a.h].phase.plan);
      }
    }
  }

  /**
   * In every reachable state payloads have their parents; and a payload that one more step does
   * not delete is stored afterwards as it was before.
   */
  lemma PayloadsAreKept(env: Env, actions: seq<Action>, a: Action, p: PayloadId)
    requires var s := Reached(env, actions);
      && Enabled(s, a) && p in s.db.payloads
      && !(a.Commit? && p in PurgedBy(s.handlers[a.h].phase.plan))
    ensures PayloadsHaveParents(Reached(env, actions).db)
    ensures var before, after := Reached(env, actions).db, Step(env, Reached(env, actions), a).db;
      p in after.payloads && after.payloads[p] == before.payloads[p]
  {
    PayloadsHaveParentsReached(env, actions);
    ExecKeepsInv(env, Start(), actions);
    var s := Reached(env, actions);
    if a.Commit? && !Conflict(s.db, s.handlers[a.h].phase.plan) {
      assert HandlerFits(s.db, s.handlers[a.h]);
      CommitKeepsPayloads(s.db, s.handlers[a.h].message, s.handlers[a.h].phase.plan);
    }
  }
}
