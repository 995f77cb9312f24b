/**
 * Recording one audit event although its message is delivered again and again, also at
 * the same time.  Detection is dispatched only for what is stored.
 */
module AuditTasks {
  import opened Wrappers

  type AuditId = nat
  type TaskId = string
  type DeliveryId = nat

  /** The supplied id is absent when it is missing or no UUID. */
  datatype AuditData = AuditData(suppliedId: Option<AuditId>, content: string)

  /** Messages without an id of their own get one that is derived from the task, the same on each retry. */
  function AuditIdOf(derive: TaskId -> AuditId, data: AuditData, task: TaskId): AuditId {
    if data.suppliedId.Some? then data.suppliedId.value else derive(task)
  }

  /** The results "success" and "duplicate". */
  datatype Status = Recorded | Duplicate

  // ----- The code, undisturbed -----

  class AuditStore {
    const derive: TaskId -> AuditId
    var rows: map<AuditId, string>
    var dispatched: seq<AuditId>

    constructor (derive: TaskId -> AuditId)
      ensures rows == map[] && dispatched == []
    {
      this.derive, rows, dispatched := derive, map[], [];
    }

    /** Stores the event once; the first delivery succeeds, later ones are duplicates, all dispatch. */
    method RecordAuditLog(data: AuditData, task: TaskId) returns (status: Status)
      modifies this
      ensures var id := match data.suppliedId case Some(supplied) => supplied case None => derive(task);
        && status == (if id in old(rows) then Duplicate else Recorded)
        && rows == (if id in old(rows) then old(rows) else old(rows)[id := data.content])
        && dispatched == old(dispatched) + [id]
    {
      var id := AuditIdOf(derive, data, task);
      if id in rows {
        status := Duplicate;
      } else {
        rows := rows[id := data.content];
        status := Recorded;
      }
      dispatched := dispatched + [id];
    }
  }

  // ----- Racing deliveries -----

  datatype Phase =
    | Ready
    | Inserting
    | Rechecking
    | Dispatching(status: Status)
    | Dispatched(status: Status)
    | Returned(status: Status)

  datatype Delivery = Delivery(id: AuditId, content: string, phase: Phase)

  datatype Event =
    | RowCommitted(actor: DeliveryId, id: AuditId)
    | DetectionSent(actor: DeliveryId, id: AuditId)
    | ResultReturned(actor: DeliveryId, id: AuditId, status: Status)

  datatype State = State(rows: map<AuditId, string>, deliveries: map<DeliveryId, Delivery>, log: seq<Event>)

  datatype Action =
    | Deliver(d: DeliveryId, id: AuditId, content: string)
    | Read(d: DeliveryId)
    | Commit(d: DeliveryId)
    | RejectInsert(d: DeliveryId)
    | Recheck(d: DeliveryId)
    | Send(d: DeliveryId)
    | Return(d: DeliveryId)
    | Fail(d: DeliveryId)

  function Start(): State { State(map[], map[], []) }

  predicate Enabled(s: State, a: Action) {
    match a
    case Deliver(d, _, _) => d !in s.deliveries
    case Read(d) => d in s.deliveries && s.deliveries[d].phase.Ready?
    case Commit(d) => d in s.deliveries && s.deliveries[d].phase.Inserting?
    case RejectInsert(d) => d in s.deliveries && s.deliveries[d].phase.Inserting?
    case Recheck(d) => d in s.deliveries && s.deliveries[d].phase.Rechecking?
    case Send(d) => d in s.deliveries && s.deliveries[d].phase.Dispatching?
    case Return(d) => d in s.deliveries && s.deliveries[d].phase.Dispatched?
    case Fail(d) => d in s.deliveries && !s.deliveries[d].phase.Returned?
  }

  function WithPhase(s: State, d: DeliveryId, phase: Phase): State
    requires d in s.deliveries
  {
    s.(deliveries := s.deliveries[d := s.deliveries[d].(phase := phase)])
  }

  function Step(s: State, a: Action): State
    requires Enabled(s, a)
  {
    match a
    case Deliver(d, id, content) => s.(deliveries := s.deliveries[d := Delivery(id, content, Ready)])
    case Read(d) => WithPhase(s, d, if s.deliveries[d].id in s.rows then Dispatching(Duplicate) else Inserting)
    case Commit(d) =>
      var id := s.deliveries[d].id;
      if id in s.rows then WithPhase(s, d, Rechecking)
      else WithPhase(s, d, Dispatching(Recorded)).(
           rows := s.rows[id := s.deliveries[d].content], log := s.log + [RowCommitted(d, id)])
    case RejectInsert(d) => WithPhase(s, d, Rechecking)
    case Recheck(d) => WithPhase(s, d, if s.deliveries[d].id in s.rows then Dispatching(Duplicate) else Ready)
    case Send(d) =>
      WithPhase(s, d, Dispatched(s.deliveries[d].phase.status)).(
        log := s.log + [DetectionSent(d, s.deliveries[d].id)])
    case Return(d) =>
      WithPhase(s, d, Returned(s.deliveries[d].phase.status)).(
        log := s.log + [ResultReturned(d, s.deliveries[d].id, s.deliveries[d].phase.status)])
    case Fail(d) => WithPhase(s, d, Ready)
  }

  function Exec(s: State, actions: seq<Action>): State {
    if actions == [] then s
    else
      var before := Exec(s, actions[..|actions| - 1]);
      var a := actions[|actions| - 1];
      if Enabled(before, a) then Step(before, a) else before
  }

  ghost predicate Before(log: seq<Event>, i: int, e: Event) {
    exists k :: 0 <= k < i && k < |log| && log[k] == e
  }

  predicate Succeeding(phase: Phase) {
    (phase.Dispatching? || phase.Dispatched? || phase.Returned?) && phase.status == Recorded
  }

  // ----- The invariant -----

  ghost predicate HasCommitter(log: seq<Event>, i: int, id: AuditId) {
    exists d :: Before(log, i, RowCommitted(d, id))
  }

  /** Rows and their commit events correspond, and each row is committed once. */
  ghost predicate RowsLogged(rows: map<AuditId, string>, log: seq<Event>) {
    && (forall id :: id in rows ==> HasCommitter(log, |log|, id))
    && (forall k :: 0 <= k < |log| && log[k].RowCommitted? ==> log[k].id in rows)
    && (forall j, k :: 0 <= j < k < |log| && log[j].RowCommitted? && log[k].RowCommitted? ==> log[j].id != log[k].id)
  }

  /** A delivery past its insert has its row; a succeeding one committed it; a dispatched one sent. */
  ghost predicate DeliveryLogged(rows: map<AuditId, string>, log: seq<Event>, d: DeliveryId, delivery: Delivery) {
    var phase, id := delivery.phase, delivery.id;
    && (phase.Dispatching? || phase.Dispatched? || phase.Returned? ==> id in rows)
    && (Succeeding(phase) ==> Before(log, |log|, RowCommitted(d, id)))
    && (phase.Dispatched? || phase.Returned? ==> Before(log, |log|, DetectionSent(d, id)))
  }

  ghost predicate DeliveriesLogged(s: State) {
    forall d :: d in s.deliveries ==> DeliveryLogged(s.rows, s.log, d, s.deliveries[d])
  }

  ghost predicate SendsFollowRows(log: seq<Event>) {
    forall k :: 0 <= k < |log| && log[k].DetectionSent? ==> HasCommitter(log, k, log[k].id)
  }

  ghost predicate ResultLogged(log: seq<Event>, k: int)
    requires 0 <= k < |log| && log[k].ResultReturned?
  {
    && Before(log, k, DetectionSent(log[k].actor, log[k].id))
    && (log[k].status == Recorded ==> Before(log, k, RowCommitted(log[k].actor, log[k].id)))
  }

  ghost predicate ResultsLogged(s: State) {
    forall k :: 0 <= k < |s.log| && s.log[k].ResultReturned? ==>
      && ResultLogged(s.log, k)
      && s.log[k].actor in s.deliveries && s.deliveries[s.log[k].actor].phase.Returned?
  }

  /** Each delivery returns at most once. */
  ghost predicate OneResultEach(log: seq<Event>) {
    forall j, k :: 0 <= j < k < |log| && log[j].ResultReturned? && log[k].ResultReturned? ==> log[j].actor != log[k].actor
  }

  ghost predicate Inv(s: State) {
    && RowsLogged(s.rows, s.log) && DeliveriesLogged(s) && SendsFollowRows(s.log) && ResultsLogged(s)
    && OneResultEach(s.log)
  }

  // ----- Appending to the log -----

  lemma BeforeGrows(log: seq<Event>, e: Event, i: int, b: Event)
    requires Before(log, i, b)
    ensures Before(log + [e], i, b) && Before(log + [e], |log| + 1, b)
  {
    var k :| 0 <= k < i && k < |log| && log[k] == b;
    assert (log + [e])[k] == b;
  }

  lemma LastIsBefore(log: seq<Event>, e: Event)
    ensures Before(log + [e], |log| + 1, e)
  {
    assert (log + [e])[|log|] == e;
  }

  lemma CommitterStays(log: seq<Event>, e: Event, i: int, id: AuditId)
    requires HasCommitter(log, i, id)
    ensures HasCommitter(log + [e], i, id) && HasCommitter(log + [e], |log| + 1, id)
  {
    var d :| Before(log, i, RowCommitted(d, id));
    BeforeGrows(log, e, i, RowCommitted(d, id));
  }

  lemma AppendKeepsRows(rows: map<AuditId, string>, log: seq<Event>, e: Event)
    requires RowsLogged(rows, log) && !e.RowCommitted?
    ensures RowsLogged(rows, log + [e])
  {
    forall id | id in rows ensures HasCommitter(log + [e], |log| + 1, id) {
      CommitterStays(log, e, |log|, id);
    }
  }

  lemma AppendKeepsDelivery(
      rows: map<AuditId, string>, more: map<AuditId, string>, log: seq<Event>, e: Event, d: DeliveryId, delivery: Delivery)
    requires DeliveryLogged(rows, log, d, delivery) && rows.Keys <= more.Keys
    ensures DeliveryLogged(more, log + [e], d, delivery)
  {
    forall b | Before(log, |log|, b) ensures Before(log + [e], |log| + 1, b) {
      BeforeGrows(log, e, |log|, b);
    }
  }

  lemma AppendKeepsSends(log: seq<Event>, e: Event)
    requires SendsFollowRows(log) && (e.DetectionSent? ==> HasCommitter(log, |log|, e.id))
    ensures SendsFollowRows(log + [e])
  {
    var longer := log + [e];
    forall k | 0 <= k < |longer| && longer[k].DetectionSent? ensures HasCommitter(longer, k, longer[k].id) {
      CommitterStays(log, e, k, longer[k].id);
    }
  }

  lemma AppendKeepsResult(log: seq<Event>, e: Event, k: int)
    requires 0 <= k < |log| && log[k].ResultReturned? && ResultLogged(log, k)
    ensures ResultLogged(log + [e], k)
  {
    forall b | Before(log, k, b) ensures Before(log + [e], k, b) {
      BeforeGrows(log, e, k, b);
    }
  }

  /** What every step that appends `e` has to provide. */
  lemma AppendKeepsInv(s: State, s': State, d: DeliveryId, e: Event)
    requires Inv(s) && d in s.deliveries && !s.deliveries[d].phase.Returned?
    requires s'.log == s.log + [e] && s.rows.Keys <= s'.rows.Keys && RowsLogged(s'.rows, s'.log)
    requires d in s'.deliveries && s'.deliveries == s.deliveries[d := s'.deliveries[d]]
    requires DeliveryLogged(s'.rows, s'.log, d, s'.deliveries[d])
    requires e.DetectionSent? ==> HasCommitter(s.log, |s.log|, e.id)
    requires e.ResultReturned? ==> ResultLogged(s'.log, |s.log|) && e.actor == d && s'.deliveries[d].phase.Returned?
    ensures Inv(s')
  {
    hide Before, HasCommitter, RowsLogged, DeliveryLogged, ResultLogged;
    forall o | o in s'.deliveries ensures DeliveryLogged(s'.rows, s'.log, o, s'.deliveries[o]) {
      if o != d {
        AppendKeepsDelivery(s.rows, s'.rows, s.log, e, o, s.deliveries[o]);
      }
    }
    AppendKeepsSends(s.log, e);
    forall k | 0 <= k < |s.log| && s.log[k].ResultReturned? ensures ResultLogged(s'.log, k) {
      AppendKeepsResult(s.log, e, k);
    }
  }

  lemma CommitKeepsInv(s: State, d: DeliveryId)
    requires Inv(s) && Enabled(s, Commit(d)) && s.deliveries[d].id !in s.rows
    ensures Inv(Step(s, Commit(d)))
  {
    var id := s.deliveries[d].id;
    var s', e := Step(s, Commit(d)), RowCommitted(d, id);
    LastIsBefore(s.log, e);
    forall i | i in s'.rows ensures HasCommitter(s'.log, |s'.log|, i) {
      if i != id { CommitterStays(s.log, e, |s.log|, i); }
    }
    AppendKeepsInv(s, s', d, e);
  }

  lemma SendKeepsInv(s: State, d: DeliveryId)
    requires Inv(s) && Enabled(s, Send(d))
    ensures Inv(Step(s, Send(d)))
  {
    var s', e := Step(s, Send(d)), DetectionSent(d, s.deliveries[d].id);
    assert DeliveryLogged(s.rows, s.log, d, s.deliveries[d]);
    LastIsBefore(s.log, e);
    AppendKeepsRows(s.rows, s.log, e);
    AppendKeepsDelivery(s.rows, s.rows, s.log, e, d, s.deliveries[d]);
    AppendKeepsInv(s, s', d, e);
  }

  lemma ReturnKeepsInv(s: State, d: DeliveryId)
    requires Inv(s) && Enabled(s, Return(d))
    ensures Inv(Step(s, Return(d)))
  {
    var delivery := s.deliveries[d];
    var s', e := Step(s, Return(d)), ResultReturned(d, delivery.id, delivery.phase.status);
    assert DeliveryLogged(s.rows, s.log, d, delivery);
    AppendKeepsRows(s.rows, s.log, e);
    AppendKeepsDelivery(s.rows, s.rows, s.log, e, d, delivery);
    forall b | Before(s.log, |s.log|, b) ensures Before(s'.log, |s.log|, b) {
      BeforeGrows(s.log, e, |s.log|, b);
    }
    AppendKeepsInv(s, s', d, e);
  }

  lemma QuietStepKeepsInv(s: State, a: Action)
    requires Inv(s) && Enabled(s, a) && Step(s, a).log == s.log
    ensures Inv(Step(s, a))
  {
    hide Before, HasCommitter, RowsLogged, ResultLogged;
  }

  lemma {:induction false} InvReached(actions: seq<Action>)
    ensures Inv(Exec(Start(), actions))
  {
    if actions != [] {
      var init, a := actions[..|actions| - 1], actions[|actions| - 1];
      InvReached(init);
      var s := Exec(Start(), init);
      if Enabled(s, a) {
        if a.Send? {
          SendKeepsInv(s, a.d);
        } else if a.Return? {
          ReturnKeepsInv(s, a.d);
        } else if a.Commit? && s.deliveries[a.d].id !in s.rows {
          CommitKeepsInv(s, a.d);
        } else {
          QuietStepKeepsInv(s, a);
        }
      }
    }
  }

  lemma SameCommit(rows: map<AuditId, string>, log: seq<Event>, a: int, b: int)
    requires RowsLogged(rows, log) && 0 <= a < |log| && 0 <= b < |log|
    requires log[a].RowCommitted? && log[b].RowCommitted? && log[a].id == log[b].id
    ensures a == b
  {
  }

  /** Two results of one audit event. */
  predicate BothReturned(a: Event, b: Event) { a.ResultReturned? && b.ResultReturned? && a.id == b.id }

  lemma SuccessIsUnique(s: State, j: int, k: int)
    requires Inv(s) && 0 <= j < |s.log| && 0 <= k < |s.log| && BothReturned(s.log[j], s.log[k])
    requires s.log[j].status == Recorded && s.log[k].status == Recorded
    ensures j == k
  {
    var log := s.log;
    var a :| 0 <= a < j && a < |log| && log[a] == RowCommitted(log[j].actor, log[j].id);
    var b :| 0 <= b < k && b < |log| && log[b] == RowCommitted(log[k].actor, log[k].id);
    SameCommit(s.rows, log, a, b);
    assert log[j].actor == log[k].actor;
  }

  /**
   * For every interleaving of any deliveries: a row is committed at most once; at most one
   * delivery of an event returns "success"; every result follows a dispatch by its own
   * delivery, and a "success" the commit of its own row; no dispatch precedes the commit of
   * its row.
   */
  lemma RacingDeliveriesAreSafe(actions: seq<Action>)
    ensures var log := Exec(Start(), actions).log;
      && (forall j, k :: 0 <= j < k < |log| && log[j].RowCommitted? && log[k].RowCommitted? ==> log[j].id != log[k].id)
      && (forall j, k :: 0 <= j < |log| && 0 <= k < |log| && BothReturned(log[j], log[k]) ==>
        (log[j].status == Recorded && log[k].status == Recorded ==> j == k))
      && (forall k :: 0 <= k < |log| && log[k].ResultReturned? ==> ResultLogged(log, k))
      && SendsFollowRows(log)
  {
    InvReached(actions);
    var s := Exec(Start(), actions);
    forall j, k | 0 <= j < |s.log| && 0 <= k < |s.log| && BothReturned(s.log[j], s.log[k])
      && s.log[j].status == Recorded && s.log[k].status == Recorded
      ensures j == k
    {
      SuccessIsUnique(s, j, k);
    }
  }

  // ----- The code is one of the runs -----

  lemma ExecOneMore(s: State, actions: seq<Action>, a: Action)
    ensures var before := Exec(s, actions);
      Exec(s, actions + [a]) == if Enabled(before, a) then Step(before, a) else before
  {
    assert (actions + [a])[..|actions|] == actions;
  }

  /** What an undisturbed delivery does step by step is what the code does at once. */
  lemma UndisturbedDelivery(s: State, d: DeliveryId, id: AuditId, content: string) returns (actions: seq<Action>)
    requires d !in s.deliveries
    ensures var after, status := Exec(s, actions), if id in s.rows then Duplicate else Recorded;
      && after.deliveries == s.deliveries[d := Delivery(id, content, Returned(status))]
      && after.rows == (if id in s.rows then s.rows else s.rows[id := content])
      && after.log == s.log + (if id in s.rows then [] else [RowCommitted(d, id)])
                      + [DetectionSent(d, id), ResultReturned(d, id, status)]
  {
    var none: seq<Action> := [];
    ExecOneMore(s, none, Deliver(d, id, content));
    ExecOneMore(s, none + [Deliver(d, id, content)], Read(d));
    actions := none + [Deliver(d, id, content)] + [Read(d)];
    var read := Exec(s, actions);
    if id !in s.rows {
      ExecOneMore(s, actions, Commit(d));
      actions := actions + [Commit(d)];
    }
    var stored := Exec(s, actions);
    ExecOneMore(s, actions, Send(d));
    ExecOneMore(s, actions + [Send(d)], Return(d));
    actions := actions + [Send(d)] + [Return(d)];
  }

  /** A delivery whose row was committed by another one since its read ends as a duplicate, dispatched all the same. */
  lemma LostRaceIsDuplicate(s: State, d: DeliveryId)
    requires d in s.deliveries && s.deliveries[d].phase.Inserting? && s.deliveries[d].id in s.rows
    ensures var id := s.deliveries[d].id;
      var after := Exec(s, [Commit(d), Recheck(d), Send(d), Return(d)]);
      && after.deliveries == s.deliveries[d := s.deliveries[d].(phase := Returned(Duplicate))]
      && after.rows == s.rows && after.log == s.log + [DetectionSent(d, id), ResultReturned(d, id, Duplicate)]
  {
    var none: seq<Action> := [];
    ExecOneMore(s, none, Commit(d));
    ExecOneMore(s, none + [Commit(d)], Recheck(d));
    ExecOneMore(s, none + [Commit(d)] + [Recheck(d)], Send(d));
    ExecOneMore(s, none + [Commit(d)] + [Recheck(d)] + [Send(d)], Return(d));
    assert none + [Commit(d)] + [Recheck(d)] + [Send(d)] + [Return(d)] == [Commit(d), Recheck(d), Send(d), Return(d)];
  }
}
