/**
 * What the delivery order and redelivery do to a whole node row, over runs of the protocol
 * in which the deliveries do not overlap.
 */
module LogOrders {
  import opened Wrappers
  import opened LogProtocol
  import opened LogSafety
  import opened LogStore

  /** Two deliveries, one after the other, as a run of the protocol. */
  lemma TwoDeliveries(env: Env, s: State, h: HandlerId, m: Message, k: HandlerId, n: Message)
    returns (actions: seq<Action>)
    requires h !in s.handlers && k !in s.handlers && h != k
    ensures Exec(env, s, actions).db == Undisturbed(env, Undisturbed(env, s.db, m).db, n).db
  {
    var first, _ := UndisturbedIsProtocol(env, s, h, m);
    var second, _ := UndisturbedIsProtocol(env, Exec(env, s, first), k, n);
    ExecSplits(env, s, first, second);
    actions := first + second;
  }

  // ----- Create and finish in either order -----

  /** A create and a finish of a node whose run is stored and which is not. */
  predicate NewNode(db: Db, c: NodeCreation, f: NodeFinish) {
    c.node == f.node && c.run == f.run && c.run in db.runs && c.node !in db.nodes
  }

  lemma CreateThenFinishRow(env: Env, db: Db, c: NodeCreation, f: NodeFinish)
    requires NewNode(db, c, f)
    requires var created := Undisturbed(env, db, CreateNode(c));
      created.outcome == Done && Undisturbed(env, created.db, FinishNode(f)).outcome == Done
    ensures var finished := Undisturbed(env, Undisturbed(env, db, CreateNode(c)).db, FinishNode(f)).db;
      && c.node in finished.nodes
      && finished.nodes[c.node] == FinishedNode(env, RowFromCreateNode(CapturedCreate(env, c)), CapturedFinish(env, f))
  {
    hide Undisturbed, NewPayloads, WithPayloads, PayloadsFit, FinishedNode, RowFromCreateNode, CapturedCreate;
    hide CapturedFinish;
    CreateNodeEffect(env, db, c);
    FinishNodeEffect(env, Undisturbed(env, db, CreateNode(c)).db, f);
  }

  /** The late create leaves the row of the finish alone, whether its payloads can be kept or not. */
  lemma FinishThenCreateRow(env: Env, db: Db, c: NodeCreation, f: NodeFinish)
    requires NewNode(db, c, f) && Undisturbed(env, db, FinishNode(f)).outcome == Done
    ensures var created := Undisturbed(env, Undisturbed(env, db, FinishNode(f)).db, CreateNode(c)).db;
      && c.node in created.nodes
      && created.nodes[c.node] == RowFromFinishNode(env, CapturedFinish(env, f))
  {
    hide Undisturbed, NewPayloads, WithPayloads, PayloadsFit, RowFromFinishNode, RowFromCreateNode, CapturedCreate;
    hide CapturedFinish;
    FinishNodeEffect(env, db, f);
    CreateNodeEffect(env, Undisturbed(env, db, FinishNode(f)).db, c);
  }

  /**
   * Type, start, duration (a zero one counts only when the finish comes first), metadata (an
   * empty one is stored only when the finish comes first), flags, sequence and retry count.
   */
  predicate RemainingColumnsAgree(env: Env, c: NodeCreation, f: NodeFinish) {
    var started := StartOr(f.startedAt, f.finishedAt);
    var clean := env.sanitizeSpan(NodeTypeOr(f.nodeType, "unknown"), OrEmpty(f.traceMetadata));
    && c.nodeType == NodeTypeOr(f.nodeType, "unknown") && c.startedAt == started
    && (f.duration == Some(0) ==> f.finishedAt == started)
    && (Truthy(clean) || clean == Null)
    && (c.redaction ==> f.redaction) && (c.pii ==> f.pii)
    && (c.sequence.Some? && c.sequence.value != 0 ==> c.sequence == f.sequence)
    && (f.retryCount == 0 ==> c.retryCount == 0)
  }

  lemma RowsAreEqualIff(env: Env, c: NodeCreation, f: NodeFinish)
    requires c.run == f.run
    ensures var createFirst := FinishedNode(env, RowFromCreateNode(CapturedCreate(env, c)), CapturedFinish(env, f));
      createFirst == RowFromFinishNode(env, CapturedFinish(env, f)) <==> RemainingColumnsAgree(env, c, f)
  {
  }

  /**
   * From any state with the run and without the node, there are a run of the protocol that
   * delivers the create and then the finish and one that delivers them in the other order,
   * and the node rows they store are equal exactly when the remaining columns agree.
   */
  lemma OrdersStoreTheSameRow(env: Env, s: State, c: NodeCreation, f: NodeFinish, h: HandlerId, k: HandlerId)
    returns (createFirst: seq<Action>, finishFirst: seq<Action>)
    requires NewNode(s.db, c, f) && h !in s.handlers && k !in s.handlers && h != k
    requires var created := Undisturbed(env, s.db, CreateNode(c));
      created.outcome == Done && Undisturbed(env, created.db, FinishNode(f)).outcome == Done
    requires Undisturbed(env, s.db, FinishNode(f)).outcome == Done
    ensures var one, other := Exec(env, s, createFirst).db, Exec(env, s, finishFirst).db;
      && one == Undisturbed(env, Undisturbed(env, s.db, CreateNode(c)).db, FinishNode(f)).db
      && other == Undisturbed(env, Undisturbed(env, s.db, FinishNode(f)).db, CreateNode(c)).db
      && c.node in one.nodes && c.node in other.nodes
      && (one.nodes[c.node] == other.nodes[c.node] <==> RemainingColumnsAgree(env, c, f))
  {
    hide Undisturbed, FinishedNode, RowFromFinishNode, RowFromCreateNode, RemainingColumnsAgree;
    createFirst := TwoDeliveries(env, s, h, CreateNode(c), k, FinishNode(f));
    finishFirst := TwoDeliveries(env, s, h, FinishNode(f), k, CreateNode(c));
    CreateThenFinishRow(env, s.db, c, f);
    FinishThenCreateRow(env, s.db, c, f);
    RowsAreEqualIff(env, c, f);
  }

  // ----- A pair that depends on the order -----

  const CREATED := NodeCreation(0, 0, "llmNode", EMPTY, EMPTY, EMPTY, 0, false, false, None, 0, [])

  /** A finish that reports a duration of zero although a second passed. */
  const FINISHED := NodeFinish(
    0, 0, Some("llmNode"), EMPTY, EMPTY, EMPTY, EMPTY, Some(0), 1, Some(0), false, false, None, 0, [])

  lemma NoPayloadsFit(db: Db)
    ensures PayloadsFit(db, NewPayloads(db.payloads.Keys, 0, []))
    ensures WithPayloads(db.payloads, []) == db.payloads
  {
  }

  lemma CreatedAlone(env: Env, db: Db)
    requires 0 in db.runs && 0 !in db.nodes && db.payloads == map[]
    ensures var e := Undisturbed(env, db, CreateNode(CREATED));
      && e.outcome == Done && e.db.runs == db.runs && e.db.payloads == map[]
      && e.db.nodes == db.nodes[0 := RowFromCreateNode(CREATED)]
  {
    assert CapturedCreate(env, CREATED) == CREATED;
    hide Undisturbed, NewPayloads, PayloadsFit;
    CreateNodeEffect(env, db, CREATED);
    NoPayloadsFit(db);
    NoPayloadsFit(db.(nodes := db.nodes[0 := RowFromCreateNode(CREATED)]));
  }

  lemma FinishedAlone(env: Env, db: Db)
    requires 0 in db.runs && db.payloads == map[] && FinishSummary(env, FINISHED).None?
    ensures Undisturbed(env, db, FinishNode(FINISHED)).outcome == Done
  {
    hide Undisturbed, NewPayloads, PayloadsFit, FinishedNode, RowFromFinishNode;
    assert db.payloads - {} == db.payloads && db.payloads.Keys - {} == db.payloads.Keys;
    FinishNodeEffect(env, db, FINISHED);
    var row := if 0 in db.nodes then FinishedNode(env, db.nodes[0], FINISHED) else RowFromFinishNode(env, FINISHED);
    NoPayloadsFit(db.(nodes := db.nodes[0 := row]));
  }

  /** The same two messages store a duration of one second or of none, depending on their order. */
  lemma ZeroDurationDependsOnTheOrder(env: Env, s: State)
    requires 0 in s.db.runs && 0 !in s.db.nodes && s.db.payloads == map[] && s.handlers == map[]
    requires FinishSummary(env, FINISHED).None?
    ensures var one := Undisturbed(env, Undisturbed(env, s.db, CreateNode(CREATED)).db, FinishNode(FINISHED)).db;
      var other := Undisturbed(env, Undisturbed(env, s.db, FinishNode(FINISHED)).db, CreateNode(CREATED)).db;
      && 0 in one.nodes && 0 in other.nodes
      && one.nodes[0].duration == Some(1) && other.nodes[0].duration == Some(0)
  {
    hide Undisturbed;
    CreatedAlone(env, s.db);
    FinishedAlone(env, Undisturbed(env, s.db, CreateNode(CREATED)).db);
    FinishedAlone(env, s.db);
    CreateThenFinishRow(env, s.db, CREATED, FINISHED);
    FinishThenCreateRow(env, s.db, CREATED, FINISHED);
  }

  // ----- Redelivery of a terminal message -----

  lemma FinishingTwice(env: Env, row: NodeRow, f: NodeFinish)
    ensures FinishedNode(env, FinishedNode(env, row, f), f) == FinishedNode(env, row, f)
    ensures FinishedNode(env, RowFromFinishNode(env, f), f) == RowFromFinishNode(env, f) <==>
      (f.duration == Some(0) ==> f.finishedAt == StartOr(f.startedAt, f.finishedAt))
  {
  }

  /**
   * A finish that is delivered again leaves the row as it is, unless the row was made by a
   * finish that reports a duration of zero for a node that took time.
   */
  lemma RedeliveredFinish(env: Env, db: Db, f: NodeFinish)
    requires var first := Undisturbed(env, db, FinishNode(f));
      first.outcome == Done && Undisturbed(env, first.db, FinishNode(f)).outcome == Done
    ensures var once := Undisturbed(env, db, FinishNode(f)).db;
      var twice := Undisturbed(env, once, FinishNode(f)).db;
      && f.node in once.nodes && f.node in twice.nodes
      && (twice.nodes[f.node] == once.nodes[f.node] <==>
        f.node in db.nodes || (f.duration == Some(0) ==> f.finishedAt == StartOr(f.startedAt, f.finishedAt)))
  {
    if f.node !in db.nodes && f.run !in db.runs {
      NothingWithoutRun(env, db, f);
    } else {
      hide Undisturbed, NewPayloads, WithPayloads, PayloadsFit, FinishedNode, RowFromFinishNode;
      var once, captured := Undisturbed(env, db, FinishNode(f)).db, CapturedFinish(env, f);
      FinishNodeEffect(env, db, f);
      FinishNodeEffect(env, once, f);
      FinishingTwice(env, if f.node in db.nodes then db.nodes[f.node] else RowFromFinishNode(env, captured), captured);
    }
  }

  lemma FailingTwice(env: Env, row: NodeRow, d: NodeError, metadataOnly: bool)
    ensures FailedNode(env, FailedNode(env, row, d, metadataOnly), d, metadataOnly) == FailedNode(env, row, d, metadataOnly)
    ensures var made := RowFromErrorNode(env, CapturedError(env, d));
      FailedNode(env, made, CapturedError(env, d), ErrorIsMetadataOnly(env, d)) == made <==>
      (d.duration == Some(0) ==> d.finishedAt == StartOr(d.startedAt, d.finishedAt))
  {
  }

  /** The same for an error, which never fails to commit. */
  lemma RedeliveredError(env: Env, db: Db, d: NodeError)
    requires d.node in db.nodes || d.run in db.runs
    ensures var once := Undisturbed(env, db, ErrorNode(d)).db;
      var twice := Undisturbed(env, once, ErrorNode(d)).db;
      && d.node in once.nodes && d.node in twice.nodes
      && (twice.nodes[d.node] == once.nodes[d.node] <==>
        d.node in db.nodes || (d.duration == Some(0) ==> d.finishedAt == StartOr(d.startedAt, d.finishedAt)))
  {
    hide Undisturbed, FailedNode, RowFromErrorNode;
    var once, captured := Undisturbed(env, db, ErrorNode(d)).db, CapturedError(env, d);
    ErrorNodeEffect(env, db, d);
    ErrorNodeEffect(env, once, d);
    FailingTwice(
      env, if d.node in db.nodes then db.nodes[d.node] else RowFromErrorNode(env, captured), captured,
      ErrorIsMetadataOnly(env, d));
    FailingTwice(env, RowFromErrorNode(env, captured), d, ErrorIsMetadataOnly(env, d));
  }
}
