/**
 * When the finish of a node is followed by a request for its run's record, although no finish
 * asks for one: exactly when the end of the run is acknowledged later.
 */
module LogLateFinish {
  import opened Wrappers
  import opened LogProtocol
  import opened LogSafety
  import opened LogRendezvous

  /** Log entry `i` is the commit of a finish of node `n`, sent for run `r`. */
  predicate NodeFinished(s: State, i: int, n: NodeId, r: RunId) {
    && 0 <= i < |s.log| && s.log[i].WriteCommitted? && s.log[i].handler in s.handlers
    && var m := s.handlers[s.log[i].handler].message;
    m.FinishNode? && RunOf(m) == r && NodeOf(m) == Some(n)
  }

  predicate EndsRun(m: Message, r: RunId) { (m.FinishRun? || m.ErrorRun?) && RunOf(m) == r }

  predicate IsAcked(s: State, h: HandlerId) { h in s.handlers && s.handlers[h].phase.Acked? }

  /** Whatever happens, the finish of a node never gets to the send step. */
  lemma FinishNeverNotifies(env: Env, actions: seq<Action>, h: HandlerId)
    requires h in Reached(env, actions).handlers && Reached(env, actions).handlers[h].message.FinishNode?
    ensures !Reached(env, actions).handlers[h].phase.Notifying?
  {
    ExecKeepsInv(env, Start(), actions);
    assert HandlerFits(Reached(env, actions).db, Reached(env, actions).handlers[h]);
  }

  /** A finish committed before the end of its run is covered by the request that follows the end. */
  lemma FinishBeforeTheEndIsRequested(env: Env, actions: seq<Action>, i: int, j: int, n: NodeId, r: RunId)
    requires var s := Reached(env, actions);
      && NodeFinished(s, i, n, r) && RunEnded(s, j, r) && i < j
      && s.handlers[s.log[j].handler].phase.Acked?
    ensures SentAfter(Reached(env, actions), j, r) && SentAfter(Reached(env, actions), i, r)
  {
    RendezvousInvReached(env, actions);
  }

  // ----- Nothing else asks for the record -----

  lemma {:induction false} MessagesStay(env: Env, s: State, actions: seq<Action>)
    ensures forall h :: h in s.handlers ==>
      && h in Exec(env, s, actions).handlers
      && Exec(env, s, actions).handlers[h].message == s.handlers[h].message
      && (IsAcked(s, h) ==> IsAcked(Exec(env, s, actions), h))
    ensures s.log <= Exec(env, s, actions).log
  {
    if actions != [] {
      var before := Exec(env, s, actions[..|actions| - 1]);
      MessagesStay(env, s, actions[..|actions| - 1]);
      HandlersKeepMessages(env, before, actions[|actions| - 1]);
    }
  }

  /**
   * From `s` on the handler of a message never asks for a record: it finishes a node or creates
   * the run, is through, or is the create of a node that is stored, and not about to send.
   */
  predicate IsSilent(s: State, h: HandlerId, m: Message) {
    || m.FinishNode? || m.CreateRun? || IsAcked(s, h)
    || (m.CreateNode? && m.creation.node in s.db.nodes && !(h in s.handlers && s.handlers[h].phase.Notifying?))
  }

  /** The create of a stored node has nothing to commit but payloads. */
  lemma CreateOfStoredNode(db: Db, m: Message, plan: Plan)
    requires PlanFits(db, m, plan) && m.CreateNode? && m.creation.node in db.nodes
    ensures Conflict(db, plan) || AfterCommit(m, plan).Acked?
    ensures !AfterConflict(m, plan).Notifying?
  {
  }

  /** How a step moves handler `h`: another one not at all, one that is through to no second send. */
  lemma StepMoves(env: Env, s: State, a: Action, h: HandlerId)
    requires Enabled(s, a)
    ensures var s' := Step(env, s, a);
      if h !in s.handlers then h in s'.handlers ==> s'.handlers[h].phase.Ready?
      else
        var m, phase := s.handlers[h].message, s.handlers[h].phase;
        && h in s'.handlers && (a.h != h ==> s'.handlers[h].phase == phase)
        && (phase.Acked? ==> s'.handlers[h].phase.Acked?)
        && (!a.Commit? && !phase.Notifying? ==> !s'.handlers[h].phase.Notifying?)
        && (a == Commit(h) ==>
          var next := if Conflict(s.db, phase.plan) then AfterConflict(m, phase.plan) else AfterCommit(m, phase.plan);
          s'.handlers[h].phase == next)
  {
    hide ReadPlan, Conflict, Committed, AfterCommit, AfterConflict, RunTerminal;
  }

  lemma StepKeepsSilent(env: Env, s: State, a: Action, h: HandlerId, m: Message)
    requires Inv(s) && Enabled(s, a) && IsSilent(s, h, m)
    requires h in s.handlers ==> s.handlers[h].message == m
    ensures IsSilent(Step(env, s, a), h, m)
  {
    StepKeepsInv(env, s, a);
    assert h in s.handlers ==> HandlerFits(s.db, s.handlers[h]);
    assert m.CreateNode? && m.creation.node in s.db.nodes ==> m.creation.node in Step(env, s, a).db.nodes;
    hide Inv, Grows, Step, ReadPlan, Conflict, Committed, PlanFits, AfterCommit, AfterConflict, RunTerminal;
    StepMoves(env, s, a, h);
    if a == Commit(h) && m.CreateNode? && m.creation.node in s.db.nodes {
      CreateOfStoredNode(s.db, m, s.handlers[h].phase.plan);
    }
  }

  lemma SilentStays(env: Env, s: State, actions: seq<Action>, h: HandlerId)
    requires Inv(s) && h in Exec(env, s, actions).handlers
    requires IsSilent(s, h, Exec(env, s, actions).handlers[h].message)
    ensures IsSilent(Exec(env, s, actions), h, Exec(env, s, actions).handlers[h].message)
    ensures !Exec(env, s, actions).handlers[h].phase.Notifying?
  {
    var m := Exec(env, s, actions).handlers[h].message;
    SilentUntil(env, s, actions, h, m);
    ExecKeepsInv(env, s, actions);
    assert HandlerFits(Exec(env, s, actions).db, Exec(env, s, actions).handlers[h]);
  }

  lemma {:induction false} SilentUntil(env: Env, s: State, actions: seq<Action>, h: HandlerId, m: Message)
    requires Inv(s) && IsSilent(s, h, m)
    requires h in Exec(env, s, actions).handlers ==> Exec(env, s, actions).handlers[h].message == m
    ensures IsSilent(Exec(env, s, actions), h, m)
  {
    if actions != [] {
      var init, a := actions[..|actions| - 1], actions[|actions| - 1];
      HandlersKeepMessages(env, Exec(env, s, init), a);
      ExecKeepsInv(env, s, init);
      SilentUntil(env, s, init, h, m);
      if Enabled(Exec(env, s, init), a) {
        StepKeepsSilent(env, Exec(env, s, init), a, h, m);
      }
    }
  }

  /** Every handler of run `r` is silent from `s` on. */
  ghost predicate NoNotifierLeft(s: State, s': State, r: RunId) {
    forall h :: h in s'.handlers && RunOf(s'.handlers[h].message) == r ==> IsSilent(s, h, s'.handlers[h].message)
  }

  /** Then nothing asks for the run's record any more, however often messages are delivered. */
  lemma {:induction false} NoNotifierNoRequest(env: Env, s: State, second: seq<Action>, r: RunId)
    requires Inv(s) && NoNotifierLeft(s, Exec(env, s, second), r)
    ensures !SentAfter(Exec(env, s, second), |s.log| - 1, r)
  {
    if second != [] {
      var init, a := second[..|second| - 1], second[|second| - 1];
      var before := Exec(env, s, init);
      HandlersKeepMessages(env, before, a);
      NoNotifierNoRequest(env, s, init, r);
      MessagesStay(env, s, init);
      ExecKeepsInv(env, s, init);
      if Enabled(before, a) && a.Notify? {
        assert HandlerFits(before.db, before.handlers[a.h]);
        if RunOf(before.handlers[a.h].message) == r { SilentStays(env, s, init, a.h); }
      }
    }
  }

  // ----- The end of the run asks for it -----

  /** An end of the run that gets through only after `first` asks for the record after `first`. */
  lemma {:induction false} LateEndRequests(
      env: Env, first: seq<Action>, second: seq<Action>, h: HandlerId, r: RunId)
    requires var s, s' := Reached(env, first), Exec(env, Reached(env, first), second);
      IsAcked(s', h) && EndsRun(s'.handlers[h].message, r) && !IsAcked(s, h)
    ensures SentAfter(Exec(env, Reached(env, first), second), |Reached(env, first).log| - 1, r)
  {
    var s := Reached(env, first);
    if second != [] {
      var init, a := second[..|second| - 1], second[|second| - 1];
      var before := Exec(env, s, init);
      HandlersKeepMessages(env, before, a);
      MessagesStay(env, s, init);
      ExecSplits(env, Start(), first, init);
      ExecKeepsInv(env, Start(), first + init);
      AcknowledgedVerdictIsTerminal(env, first + init);
      hide Inv, VerdictsAreTerminal, Step, EndsRun;
      if IsAcked(before, h) {
        LateEndRequests(env, first, init, h, r);
        if Enabled(before, a) {
          SentStays(env, before, a, |s.log| - 1, r);
        }
      } else {
        EndGetsThroughByNotifying(env, before, a, h, r);
        assert Exec(env, s, second).log[|before.log|] == RecordRunSent(r);
      }
    }
  }

  lemma SentStays(env: Env, s: State, a: Action, i: int, r: RunId)
    requires SentAfter(s, i, r) && Enabled(s, a)
    ensures SentAfter(Step(env, s, a), i, r)
  {
    var k :| 0 <= k < |s.log| && i < k && s.log[k] == RecordRunSent(r);
    assert Step(env, s, a).log[k] == RecordRunSent(r);
  }

  /** The only step that acknowledges the end of a run is its notification, which asks for the record. */
  lemma EndGetsThroughByNotifying(env: Env, s: State, a: Action, h: HandlerId, r: RunId)
    requires Inv(s) && VerdictsAreTerminal(s) && Enabled(s, a) && !IsAcked(s, h)
    requires IsAcked(Step(env, s, a), h) && EndsRun(Step(env, s, a).handlers[h].message, r)
    ensures Step(env, s, a).log == s.log + [RecordRunSent(r)]
  {
    assert h in s.handlers && s.handlers[h].phase.Notifying? ==>
      RunVerdictDone(s, h, RunOf(s.handlers[h].message), RunVerdict(s.handlers[h].message).value);
    assert h in s.handlers ==> HandlerFits(s.db, s.handlers[h]);
  }

  // ----- The exact condition -----

  /** Of run `r`, only its end is not silent after `s`, and the end is through by `s'`. */
  ghost predicate OnlyTheEndIsOpen(s: State, s': State, r: RunId) {
    forall h :: h in s'.handlers && RunOf(s'.handlers[h].message) == r ==>
      IsSilent(s, h, s'.handlers[h].message) || (EndsRun(s'.handlers[h].message, r) && IsAcked(s', h))
  }

  /** Some end of run `r` is through by `s'` and was not at `s`. */
  ghost predicate EndsBetween(s: State, s': State, r: RunId) {
    exists h :: IsAcked(s', h) && EndsRun(s'.handlers[h].message, r) && !IsAcked(s, h)
  }

  /**
   * Let the finish of a node be the last event after `first`, and let nothing but the end of
   * its run ask for the run's record afterwards.  The record is requested after the finish
   * exactly when an end of the run had not been acknowledged when the finish was committed.
   */
  lemma LateFinishIsRequestedIff(env: Env, first: seq<Action>, second: seq<Action>, n: NodeId, r: RunId)
    requires NodeFinished(Reached(env, first), |Reached(env, first).log| - 1, n, r)
    requires OnlyTheEndIsOpen(Reached(env, first), Reached(env, first + second), r)
    ensures SentAfter(Reached(env, first + second), |Reached(env, first).log| - 1, r) <==>
      EndsBetween(Reached(env, first), Reached(env, first + second), r)
  {
    var s, s' := Reached(env, first), Reached(env, first + second);
    ExecSplits(env, Start(), first, second);
    ExecKeepsInv(env, Start(), first);
    if EndsBetween(s, s', r) {
      var h :| IsAcked(s', h) && EndsRun(s'.handlers[h].message, r) && !IsAcked(s, h);
      LateEndRequests(env, first, second, h, r);
    } else {
      NoNotifierNoRequest(env, s, second, r);
    }
  }
}
