/**
 * What the drain readings say about tasks that keep moving while they are taken.
 *
 * A history places every task at every instant.  A stage change is atomic, so a task
 * is in exactly one place at a time; everything else about the readings (which worker
 * answers when, which keys the broker scan returns) is left open inside each call.
 */
module DrainHistory {
  import opened Wrappers
  import opened Drain

  datatype Place = Queued(key: string) | OnWorker(worker: string, stage: Stage) | Finished

  /** `at(t)` places the tasks published by instant `t`. */
  datatype History = History(name: TaskId -> string, at: nat -> map<TaskId, Place>)

  ghost predicate In(h: History, t: nat, x: TaskId, place: Place) {
    x in h.at(t) && h.at(t)[x] == place
  }

  ghost predicate Held(h: History, t: nat, x: TaskId) {
    x in h.at(t) && h.at(t)[x].OnWorker?
  }

  function StageRank(stage: Stage): nat {
    match stage case ScheduledStage => 1 case ReservedStage => 2 case ActiveStage => 3
  }

  function Rank(place: Place): nat {
    match place case Queued(_) => 0 case OnWorker(_, stage) => StageRank(stage) case Finished => 4
  }

  // ----- Faithful readings -----

  /** The reply lists every task that the worker holds in the asked stage at the instant of the reply. */
  ghost predicate ListsAll(h: History, t: nat, stage: Stage, reply: WorkerReply) {
    forall x :: In(h, t, x, OnWorker(reply.worker, stage)) ==> Lists(h, reply, x)
  }

  ghost predicate Lists(h: History, reply: WorkerReply, x: TaskId) {
    ListedIn(h, Tasks(reply), x)
  }

  ghost predicate ListedIn(h: History, entries: seq<TaskEntry>, x: TaskId) {
    exists j :: 0 <= j < |entries| && EntryFor(h, entries[j], x)
  }

  ghost predicate EntryFor(h: History, entry: TaskEntry, x: TaskId) {
    !entry.Malformed? && entry.id == x && Carries(entry, h.name(x))
  }

  /** Each worker replies at an instant of its own, somewhere within the call. */
  ghost predicate FaithfulCall(h: History, fleet: set<string>, call: Call, stage: Stage) {
    && call.start <= call.end
    && (call.response.Replies? ==>
      && |call.repliedAt| == |call.response.replies|
      && forall i :: 0 <= i < |call.response.replies| ==>
        && call.start <= call.repliedAt[i] <= call.end
        && call.response.replies[i].worker in fleet
        && ListsAll(h, call.repliedAt[i], stage, call.response.replies[i]))
  }

  ghost predicate FaithfulSweep(h: History, fleet: set<string>, sweep: seq<Call>) {
    && |sweep| == 6
    && (forall k :: 0 <= k < 6 ==> FaithfulCall(h, fleet, sweep[k], CallStage(k)))
    && (forall k :: 0 <= k < 5 ==> sweep[k].end <= sweep[k + 1].start)
  }

  ghost predicate KeyHolds(h: History, t: nat, key: string) {
    exists x :: In(h, t, x, Queued(key))
  }

  ghost predicate HoldsThroughout(h: History, q: QueueRead, key: string) {
    forall t :: q.start <= t <= q.end ==> KeyHolds(h, t, key)
  }

  /** A key that holds tasks throughout the scan is returned, and a read key shows what it then holds. */
  ghost predicate FaithfulQueueRead(h: History, q: QueueRead) {
    && q.start <= q.end && |q.readAt| == |q.readings|
    && (forall key :: HoldsThroughout(h, q, key) ==> exists i :: 0 <= i < |q.readings| && q.readings[i].key == key)
    && (forall i :: 0 <= i < |q.readings| ==>
      && q.start <= q.readAt[i] <= q.end
      && (KeyHolds(h, q.readAt[i], q.readings[i].key) ==> q.readings[i].isList && q.readings[i].length > 0))
  }

  /** Workers are told apart by node name, and the operator listed exactly their node names. */
  ghost predicate FleetIdentified(fleet: set<string>, expected: set<string>) {
    && (forall a, b :: a in fleet && b in fleet && WorkerNodeName(a) == WorkerNodeName(b) ==> a == b)
    && expected == set w | w in fleet :: WorkerNodeName(w)
  }

  lemma {:induction false} NodeNameHasReply(replies: seq<WorkerReply>, node: string)
    requires node in NodeNames(replies)
    ensures exists i :: 0 <= i < |replies| && WorkerNodeName(replies[i].worker) == node
  {
    if WorkerNodeName(replies[|replies| - 1].worker) != node {
      var init := replies[..|replies| - 1];
      NodeNameHasReply(init, node);
      var i :| 0 <= i < |init| && WorkerNodeName(init[i].worker) == node;
      assert replies[i] == init[i];
    }
  }

  /** A complete sweep heard from every worker of an identified fleet in each call. */
  lemma CompleteSweepHeardEveryWorker(
      h: History, fleet: set<string>, expected: set<string>, sweep: seq<Call>, k: nat, worker: string)
    returns (i: nat)
    requires FaithfulSweep(h, fleet, sweep) && FleetIdentified(fleet, expected)
    requires Complete(Responses(sweep), Some(expected))
    requires k < 6 && worker in fleet
    ensures sweep[k].response.Replies? && i < |sweep[k].response.replies|
    ensures sweep[k].response.replies[i].worker == worker
  {
    assert Acceptable(Responses(sweep), k, Some(expected));
    assert FaithfulCall(h, fleet, sweep[k], CallStage(k));
    var replies := sweep[k].response.replies;
    assert WorkerNodeName(worker) in expected;
    NodeNameHasReply(replies, WorkerNodeName(worker));
    i :| 0 <= i < |replies| && WorkerNodeName(replies[i].worker) == WorkerNodeName(worker);
  }

  // ----- Counting -----

  lemma PartSize<T>(xs: set<T>, part: set<T>)
    requires part <= xs
    ensures |xs| == |part| + |xs - part|
  {
    assert xs == part + (xs - part);
  }

  /** Distinct matching tasks listed by a reply are at most the counted entries. */
  lemma {:induction false} EntriesBoundTasks(h: History, entries: seq<TaskEntry>, names: set<string>, xs: set<TaskId>)
    requires forall x :: x in xs ==> h.name(x) in names && ListedIn(h, entries, x)
    ensures |xs| <= CountEntries(entries, names)
  {
    if entries == [] {
      assert xs == {};
    } else {
      var init, last := entries[..|entries| - 1], entries[|entries| - 1];
      var hit := set x | x in xs && EntryFor(h, last, x);
      var rest := xs - hit;
      forall x | x in rest ensures ListedIn(h, init, x) {
        var j :| 0 <= j < |entries| && EntryFor(h, entries[j], x);
        assert init[j] == entries[j];
      }
      EntriesBoundTasks(h, init, names, rest);
      PartSize(xs, hit);
      if x :| x in hit {
        assert hit == {x};
      }
    }
  }

  /** Distinct matching tasks listed anywhere in a response are at most its count. */
  lemma {:induction false} RepliesBoundTasks(h: History, replies: seq<WorkerReply>, names: set<string>, xs: set<TaskId>)
    requires forall x :: x in xs ==> h.name(x) in names && ListedAnywhere(h, replies, x)
    ensures |xs| <= CountReplies(replies, names)
  {
    if replies == [] {
      assert xs == {};
    } else {
      var init, last := replies[..|replies| - 1], replies[|replies| - 1];
      var hit := set x | x in xs && Lists(h, last, x);
      var rest := xs - hit;
      ListedBeforeLast(h, replies, rest);
      RepliesBoundTasks(h, init, names, rest);
      EntriesBoundTasks(h, Tasks(last), names, hit);
      PartSize(xs, hit);
    }
  }

  lemma ListedBeforeLast(h: History, replies: seq<WorkerReply>, xs: set<TaskId>)
    requires replies != []
    requires forall x :: x in xs ==> ListedAnywhere(h, replies, x) && !Lists(h, replies[|replies| - 1], x)
    ensures forall x :: x in xs ==> ListedAnywhere(h, replies[..|replies| - 1], x)
  {
    forall x | x in xs ensures ListedAnywhere(h, replies[..|replies| - 1], x) {
      var i :| 0 <= i < |replies| && Lists(h, replies[i], x);
      assert replies[..|replies| - 1][i] == replies[i];
    }
  }

  ghost predicate ListedAnywhere(h: History, replies: seq<WorkerReply>, x: TaskId) {
    exists i :: 0 <= i < |replies| && Lists(h, replies[i], x)
  }

  ghost predicate SeenBy(h: History, sweep: seq<Call>, k: nat, x: TaskId)
    requires k < |sweep|
  {
    sweep[k].response.Replies? && ListedAnywhere(h, sweep[k].response.replies, x)
  }

  // ----- Tasks that move one way during a sweep -----

  /** Held by `worker` throughout, never moving back a stage. */
  ghost predicate AscendsOn(h: History, x: TaskId, worker: string, from: nat, to: nat) {
    && (forall t :: from <= t <= to ==> Held(h, t, x) && h.at(t)[x].worker == worker)
    && (forall t, u :: from <= t <= u <= to ==> Rank(h.at(t)[x]) <= Rank(h.at(u)[x]))
  }

  /** Held by `worker` throughout, never moving on a stage. */
  ghost predicate DescendsOn(h: History, x: TaskId, worker: string, from: nat, to: nat) {
    && (forall t :: from <= t <= to ==> Held(h, t, x) && h.at(t)[x].worker == worker)
    && (forall t, u :: from <= t <= u <= to ==> Rank(h.at(t)[x]) >= Rank(h.at(u)[x]))
  }

  ghost predicate Ascends(h: History, fleet: set<string>, x: TaskId, from: nat, to: nat) {
    exists worker :: worker in fleet && AscendsOn(h, x, worker, from, to)
  }

  ghost predicate Descends(h: History, fleet: set<string>, x: TaskId, from: nat, to: nat) {
    exists worker :: worker in fleet && DescendsOn(h, x, worker, from, to)
  }

  /** One reply of the worker that holds `x`: what the call asked for is seen. */
  lemma ReplyShowsHeldTask(
      h: History, fleet: set<string>, expected: set<string>, sweep: seq<Call>, k: nat, x: TaskId, worker: string)
    returns (t: nat)
    requires FaithfulSweep(h, fleet, sweep) && FleetIdentified(fleet, expected)
    requires Complete(Responses(sweep), Some(expected))
    requires k < 6 && worker in fleet
    ensures sweep[k].start <= t <= sweep[k].end
    ensures In(h, t, x, OnWorker(worker, CallStage(k))) ==> SeenBy(h, sweep, k, x)
  {
    var i := CompleteSweepHeardEveryWorker(h, fleet, expected, sweep, k, worker);
    assert FaithfulCall(h, fleet, sweep[k], CallStage(k));
    t := sweep[k].repliedAt[i];
    assert ListsAll(h, t, CallStage(k), sweep[k].response.replies[i]);
  }

  /** The second half of the sweep cannot miss a task that only ascends during it. */
  lemma AscendingTaskIsSeen(
      h: History, fleet: set<string>, expected: set<string>, sweep: seq<Call>, x: TaskId)
    requires FaithfulSweep(h, fleet, sweep) && FleetIdentified(fleet, expected)
    requires Complete(Responses(sweep), Some(expected))
    requires Ascends(h, fleet, x, sweep[3].start, sweep[5].end)
    ensures SeenBy(h, sweep, 3, x) || SeenBy(h, sweep, 4, x) || SeenBy(h, sweep, 5, x)
  {
    var worker :| worker in fleet && AscendsOn(h, x, worker, sweep[3].start, sweep[5].end);
    var t3 := ReplyShowsHeldTask(h, fleet, expected, sweep, 3, x, worker);
    var t4 := ReplyShowsHeldTask(h, fleet, expected, sweep, 4, x, worker);
    var t5 := ReplyShowsHeldTask(h, fleet, expected, sweep, 5, x, worker);
    SweepIsOrdered(h, fleet, sweep);
    assert Rank(h.at(t3)[x]) <= Rank(h.at(t4)[x]) <= Rank(h.at(t5)[x]);
  }

  /** The first half cannot miss a task that only descends during it. */
  lemma DescendingTaskIsSeen(
      h: History, fleet: set<string>, expected: set<string>, sweep: seq<Call>, x: TaskId)
    requires FaithfulSweep(h, fleet, sweep) && FleetIdentified(fleet, expected)
    requires Complete(Responses(sweep), Some(expected))
    requires Descends(h, fleet, x, sweep[0].start, sweep[2].end)
    ensures SeenBy(h, sweep, 0, x) || SeenBy(h, sweep, 1, x) || SeenBy(h, sweep, 2, x)
  {
    var worker :| worker in fleet && DescendsOn(h, x, worker, sweep[0].start, sweep[2].end);
    var t0 := ReplyShowsHeldTask(h, fleet, expected, sweep, 0, x, worker);
    var t1 := ReplyShowsHeldTask(h, fleet, expected, sweep, 1, x, worker);
    var t2 := ReplyShowsHeldTask(h, fleet, expected, sweep, 2, x, worker);
    SweepIsOrdered(h, fleet, sweep);
    assert Rank(h.at(t0)[x]) >= Rank(h.at(t1)[x]) >= Rank(h.at(t2)[x]);
  }

  /** Tasks seen in one of three calls are at most the sum of their counts. */
  lemma SeenTasksAreCounted(
      h: History, sweep: seq<Call>, names: set<string>, xs: set<TaskId>, a: nat, b: nat, c: nat)
    requires a < |sweep| && b < |sweep| && c < |sweep|
    requires forall x :: x in xs ==>
      h.name(x) in names && (SeenBy(h, sweep, a, x) || SeenBy(h, sweep, b, x) || SeenBy(h, sweep, c, x))
    ensures |xs| <= CountResponse(sweep[a].response, names) + CountResponse(sweep[b].response, names)
                    + CountResponse(sweep[c].response, names)
  {
    var xa := set x | x in xs && SeenBy(h, sweep, a, x);
    var xb := set x | x in xs - xa && SeenBy(h, sweep, b, x);
    var xc := xs - xa - xb;
    CallBoundsTasks(h, sweep, names, xa, a);
    CallBoundsTasks(h, sweep, names, xb, b);
    CallBoundsTasks(h, sweep, names, xc, c);
    PartSize(xs, xa);
    PartSize(xs - xa, xb);
  }

  lemma CallBoundsTasks(h: History, sweep: seq<Call>, names: set<string>, xs: set<TaskId>, k: nat)
    requires k < |sweep|
    requires forall x :: x in xs ==> h.name(x) in names && SeenBy(h, sweep, k, x)
    ensures |xs| <= CountResponse(sweep[k].response, names)
  {
    if sweep[k].response.Replies? {
      RepliesBoundTasks(h, sweep[k].response.replies, names, xs);
    } else {
      assert xs == {};
    }
  }

  /**
   * The sweep returns at least as many as the tasks that only ascend during its second
   * half, and at least as many as those that only descend during its first half.
   */
  lemma SweepCountsOneWayTasks(
      h: History, fleet: set<string>, expected: set<string>, sweep: seq<Call>, includeLegacy: bool,
      ascending: set<TaskId>, descending: set<TaskId>)
    requires FaithfulSweep(h, fleet, sweep) && FleetIdentified(fleet, expected)
    requires Complete(Responses(sweep), Some(expected))
    requires forall x :: x in ascending ==>
      IsAwaited(h.name(x), includeLegacy) && Ascends(h, fleet, x, sweep[3].start, sweep[5].end)
    requires forall x :: x in descending ==>
      IsAwaited(h.name(x), includeLegacy) && Descends(h, fleet, x, sweep[0].start, sweep[2].end)
    ensures |ascending| <= AwaitedTotal(Responses(sweep), includeLegacy)
    ensures |descending| <= AwaitedTotal(Responses(sweep), includeLegacy)
  {
    SweepTotalIsExact(Responses(sweep), includeLegacy);
    hide AwaitedTotal, FaithfulSweep, FleetIdentified, Complete, Ascends, Descends, SeenBy;
    forall x | x in ascending
      ensures SeenBy(h, sweep, 3, x) || SeenBy(h, sweep, 4, x) || SeenBy(h, sweep, 5, x)
    {
      AscendingTaskIsSeen(h, fleet, expected, sweep, x);
    }
    SeenTasksAreCounted(h, sweep, TaskNames(includeLegacy), ascending, 3, 4, 5);
    forall x | x in descending
      ensures SeenBy(h, sweep, 2, x) || SeenBy(h, sweep, 1, x) || SeenBy(h, sweep, 0, x)
    {
      DescendingTaskIsSeen(h, fleet, expected, sweep, x);
    }
    SeenTasksAreCounted(h, sweep, TaskNames(includeLegacy), descending, 2, 1, 0);
  }

  // ----- The main theorem -----

  /** The key of the workflow queue, or of one of its priorities. */
  ghost predicate OnWorkflowQueue(key: string) {
    key == "workflow" || exists priority :: key == "workflow" + ['\U{06}', '\U{16}'] + priority
  }

  /** Awaited tasks never move back, never change queue key or worker, and are held by the fleet. */
  ghost predicate Lifecycle(h: History, includeLegacy: bool, fleet: set<string>) {
    forall x, t, u :: t <= u && x in h.at(t) && IsAwaited(h.name(x), includeLegacy) ==>
      && x in h.at(u) && Rank(h.at(t)[x]) <= Rank(h.at(u)[x])
      && (h.at(t)[x].Queued? ==> OnWorkflowQueue(h.at(t)[x].key) && (h.at(u)[x].Queued? ==> h.at(u)[x] == h.at(t)[x]))
      && (h.at(t)[x].OnWorker? ==>
        h.at(t)[x].worker in fleet && (h.at(u)[x].OnWorker? ==> h.at(u)[x].worker == h.at(t)[x].worker))
  }

  lemma KeyHeldThroughoutIsCounted(h: History, q: QueueRead, key: string)
    requires FaithfulQueueRead(h, q) && HoldsThroughout(h, q, key) && OnWorkflowQueue(key)
    ensures QueueDepth(q.readings) > 0 && !NothingQueued(q.readings)
  {
    WorkflowKeys(key);
    var i :| 0 <= i < |q.readings| && q.readings[i].key == key;
    assert KeyHolds(h, q.readAt[i], key) && CountsTowardsDepth(q.readings[i]);
    DepthZero(q.readings);
  }

  /** After an empty queue read, a task published before it is no longer queued. */
  lemma EmptyQueueReadMeansTaken(h: History, includeLegacy: bool, fleet: set<string>, q: QueueRead, x: TaskId)
    requires Lifecycle(h, includeLegacy, fleet) && FaithfulQueueRead(h, q)
    requires NothingQueued(q.readings)
    requires x in h.at(q.start) && IsAwaited(h.name(x), includeLegacy)
    ensures x in h.at(q.end) && !h.at(q.end)[x].Queued?
  {
    if h.at(q.end)[x].Queued? {
      var key := h.at(q.end)[x].key;
      forall t | q.start <= t <= q.end ensures KeyHolds(h, t, key) {
        assert Rank(h.at(t)[x]) <= Rank(h.at(q.end)[x]);
        assert In(h, t, x, Queued(key));
      }
      KeyHeldThroughoutIsCounted(h, q, key);
    }
  }

  /**
   * If the observation returns (0, 0), every matching task published before the last
   * observation's second queue read began has finished when that observation ends, and
   * stays finished.
   */
  lemma DrainIsSound(
      h: History, fleet: set<string>, expected: set<string>, run: seq<Observation>, includeLegacy: bool, x: TaskId)
    requires SweepsHaveSixCalls(run) && |run| > 0
    requires forall k :: 0 <= k < |run| ==> ObservationEmpty(run[k], includeLegacy, expected)
    requires Lifecycle(h, includeLegacy, fleet) && FleetIdentified(fleet, expected)
    requires var last := run[|run| - 1];
      && FaithfulQueueRead(h, last.queuedAfter) && FaithfulSweep(h, fleet, last.activeAfter)
      && last.queuedAfter.end <= last.activeAfter[0].start
    requires x in h.at(run[|run| - 1].queuedAfter.start) && IsAwaited(h.name(x), includeLegacy)
    ensures forall t :: run[|run| - 1].activeAfter[5].end <= t ==> In(h, t, x, Finished)
  {
    var last := run[|run| - 1];
    var sweep := last.activeAfter;
    EmptyQueueReadMeansTaken(h, includeLegacy, fleet, last.queuedAfter, x);
    SweepIsOrdered(h, fleet, sweep);
    if Held(h, sweep[5].end, x) {
      var worker := h.at(sweep[5].end)[x].worker;
      forall t | sweep[3].start <= t <= sweep[5].end ensures Held(h, t, x) && h.at(t)[x].worker == worker {
        assert 0 < Rank(h.at(last.queuedAfter.end)[x]) <= Rank(h.at(t)[x]) <= Rank(h.at(sweep[5].end)[x]) < 4;
      }
      assert AscendsOn(h, x, worker, sweep[3].start, sweep[5].end);
      SweepCountsOneWayTasks(h, fleet, expected, sweep, includeLegacy, {x}, {});
      SweepTotalIsExact(Responses(sweep), includeLegacy);
      assert false;
    }
    assert Rank(h.at(last.queuedAfter.end)[x]) <= Rank(h.at(sweep[5].end)[x]);
  }

  lemma SweepIsOrdered(h: History, fleet: set<string>, sweep: seq<Call>)
    requires FaithfulSweep(h, fleet, sweep)
    ensures forall j, k :: 0 <= j <= k < 6 ==> sweep[j].start <= sweep[k].start <= sweep[k].end
  {
    forall k | 0 <= k < 6 ensures sweep[k].start <= sweep[k].end {
      assert FaithfulCall(h, fleet, sweep[k], CallStage(k));
    }
    assert sweep[0].end <= sweep[1].start && sweep[1].end <= sweep[2].start && sweep[2].end <= sweep[3].start;
    assert sweep[3].end <= sweep[4].start && sweep[4].end <= sweep[5].start;
  }

  // ----- Where the guarantees stop -----

  /** Six calls one instant apart, each answered by `worker` at once. */
  function InstantSweep(worker: string, listed: seq<seq<TaskEntry>>): seq<Call>
    requires |listed| == 6
  {
    seq(6, k requires 0 <= k < 6 => Call(Replies([WorkerReply(worker, Some(listed[k]))]), k, k, [k]))
  }

  ghost predicate HeldThroughout(h: History, sweep: seq<Call>, x: TaskId)
    requires |sweep| == 6
  {
    forall t :: sweep[0].start <= t <= sweep[5].end ==> Held(h, t, x)
  }

  /** A reply listing exactly what a history of schedule tasks holds at instant k. */
  lemma InstantSweepIsFaithful(h: History, fleet: set<string>, worker: string, listed: seq<seq<TaskEntry>>)
    requires |listed| == 6 && worker in fleet
    requires forall k, x :: 0 <= k < 6 && In(h, k, x, OnWorker(worker, CallStage(k))) ==>
      exists j :: 0 <= j < |listed[k]| && EntryFor(h, listed[k][j], x)
    ensures FaithfulSweep(h, fleet, InstantSweep(worker, listed))
    ensures Complete(Responses(InstantSweep(worker, listed)), Some({WorkerNodeName(worker)}))
  {
    var sweep := InstantSweep(worker, listed);
    forall k | 0 <= k < 6
      ensures FaithfulCall(h, fleet, sweep[k], CallStage(k))
      ensures Acceptable(Responses(sweep), k, Some({WorkerNodeName(worker)}))
    {
      var reply := WorkerReply(worker, Some(listed[k]));
      assert sweep[k].response.replies == [reply] && Tasks(reply) == listed[k];
      assert ListsAll(h, k, CallStage(k), reply);
      assert NodeNames([reply]) == {WorkerNodeName(worker)} by { assert [reply][..0] == []; }
    }
  }

  lemma InstantSweepTotal(worker: string, listed: seq<seq<TaskEntry>>, includeLegacy: bool)
    requires |listed| == 6
    ensures var names := TaskNames(includeLegacy);
      AwaitedTotal(Responses(InstantSweep(worker, listed)), includeLegacy)
         == Max(CountEntries(listed[0], names), CountEntries(listed[5], names))
            + Max(CountEntries(listed[1], names), CountEntries(listed[4], names))
            + Max(CountEntries(listed[2], names), CountEntries(listed[3], names))
  {
    var sweep, names := InstantSweep(worker, listed), TaskNames(includeLegacy);
    SweepTotalIsExact(Responses(sweep), includeLegacy);
    forall k | 0 <= k < 6 ensures CountResponse(sweep[k].response, names) == CountEntries(listed[k], names) {
      var replies := [WorkerReply(worker, Some(listed[k]))];
      assert sweep[k].response.replies == replies;
      assert CountReplies(replies, names) == CountReplies(replies[..0], names) + CountEntries(Tasks(replies[0]), names);
    }
  }

  /**
   * Without the identification of workers by node name the guarantee is lost: for any two
   * workers that share a node name, one can answer for both while the other runs a task.
   */
  lemma SharedNodeNameHidesATask(a: string, b: string, includeLegacy: bool) returns (h: History, sweep: seq<Call>)
    requires a != b && WorkerNodeName(a) == WorkerNodeName(b)
    ensures FaithfulSweep(h, {a, b}, sweep) && Complete(Responses(sweep), Some({WorkerNodeName(a)}))
    ensures Lifecycle(h, includeLegacy, {a, b}) && HeldThroughout(h, sweep, 0)
    ensures h.name(0) == SCHEDULE_TASK && AwaitedTotal(Responses(sweep), includeLegacy) == 0
  {
    h := History(_ => SCHEDULE_TASK, _ => map[0 := OnWorker(b, ActiveStage)]);
    var listed: seq<seq<TaskEntry>> := [[], [], [], [], [], []];
    sweep := InstantSweep(a, listed);
    InstantSweepIsFaithful(h, {a, b}, a, listed);
    InstantSweepTotal(a, listed, includeLegacy);
  }

  /** A task that moves back and forth can be held throughout and never be seen. */
  lemma ZigzagTaskIsMissed(includeLegacy: bool) returns (h: History, sweep: seq<Call>)
    ensures FaithfulSweep(h, {"w"}, sweep) && FleetIdentified({"w"}, {"w"})
    ensures Complete(Responses(sweep), Some({"w"})) && HeldThroughout(h, sweep, 0)
    ensures h.name(0) == SCHEDULE_TASK && AwaitedTotal(Responses(sweep), includeLegacy) == 0
  {
    h := History(_ => SCHEDULE_TASK,
                 t => map[0 := OnWorker("w", if t == 1 || t == 4 then ActiveStage else ReservedStage)]);
    var listed: seq<seq<TaskEntry>> := [[], [], [], [], [], []];
    sweep := InstantSweep("w", listed);
    InstantSweepIsFaithful(h, {"w"}, "w", listed);
    InstantSweepTotal("w", listed, includeLegacy);
  }

  /** Task 0 goes from reserved to active at instant 1; task 1 goes back to reserved at 2 and to scheduled at 4. */
  ghost function CrossingHistory(): History {
    History(_ => SCHEDULE_TASK,
            t => map[0 := OnWorker("w", if t == 0 then ReservedStage else ActiveStage),
                     1 := OnWorker("w", if t < 2 then ActiveStage else if t < 4 then ReservedStage else ScheduledStage)])
  }

  function CrossingLists(): seq<seq<TaskEntry>> {
    [[Direct(1, Some(SCHEDULE_TASK))], [], [], [], [], [Direct(0, Some(SCHEDULE_TASK))]]
  }

  lemma CrossingListsAreComplete(k: nat, x: TaskId)
    requires k < 6 && In(CrossingHistory(), k, x, OnWorker("w", CallStage(k)))
    ensures exists j :: 0 <= j < |CrossingLists()[k]| && EntryFor(CrossingHistory(), CrossingLists()[k][j], x)
  {
    assert (k == 0 && x == 1) || (k == 5 && x == 0);
    assert EntryFor(CrossingHistory(), CrossingLists()[k][0], x);
  }

  lemma CrossingSweepIsFaithful()
    ensures FaithfulSweep(CrossingHistory(), {"w"}, InstantSweep("w", CrossingLists()))
    ensures Complete(Responses(InstantSweep("w", CrossingLists())), Some({"w"}))
  {
    var h := CrossingHistory();
    forall k, x | 0 <= k < 6 && In(h, k, x, OnWorker("w", CallStage(k)))
      ensures exists j :: 0 <= j < |CrossingLists()[k]| && EntryFor(h, CrossingLists()[k][j], x)
    {
      CrossingListsAreComplete(k, x);
    }
    InstantSweepIsFaithful(h, {"w"}, "w", CrossingLists());
    assert WorkerNodeName("w") == "w";
  }

  lemma CrossingMoves()
    ensures Ascends(CrossingHistory(), {"w"}, 0, 0, 5) && Descends(CrossingHistory(), {"w"}, 1, 0, 5)
  {
    var h := CrossingHistory();
    CrossingPlaces();
    assert AscendsOn(h, 0, "w", 0, 5);
    assert DescendsOn(h, 1, "w", 0, 5);
  }

  lemma CrossingPlaces()
    ensures forall t: nat :: Held(CrossingHistory(), t, 0) && CrossingHistory().at(t)[0].worker == "w"
    ensures forall t: nat :: Held(CrossingHistory(), t, 1) && CrossingHistory().at(t)[1].worker == "w"
    ensures forall t, u :: t <= u ==> Rank(CrossingHistory().at(t)[0]) <= Rank(CrossingHistory().at(u)[0])
    ensures forall t, u :: t <= u ==> Rank(CrossingHistory().at(t)[1]) >= Rank(CrossingHistory().at(u)[1])
  {
    forall t: nat ensures Rank(CrossingHistory().at(t)[0]) == (if t == 0 then 2 else 3)
      ensures Rank(CrossingHistory().at(t)[1]) == (if t < 2 then 3 else if t < 4 then 2 else 1) {
    }
  }

  lemma CrossingTotal(includeLegacy: bool)
    ensures AwaitedTotal(Responses(InstantSweep("w", CrossingLists())), includeLegacy) == 1
  {
    var names := TaskNames(includeLegacy);
    InstantSweepTotal("w", CrossingLists(), includeLegacy);
    forall entry
      ensures CountEntries([entry], names) == if EntryMatches(entry, names) then 1 else 0
    {
      assert CountEntries([entry][..0], names) == 0;
    }
  }

  lemma CrossingNames()
    ensures CrossingHistory().name(0) == CrossingHistory().name(1) == SCHEDULE_TASK
    ensures FleetIdentified({"w"}, {"w"})
  {
    assert WorkerNodeName("w") == "w";
  }

  lemma CrossingWindow()
    ensures var sweep := InstantSweep("w", CrossingLists());
      |sweep| == 6 && sweep[0].start == 0 && sweep[5].end == 5
  {
  }

  /** One ascending and one descending task, both held throughout, can add up to a total of one. */
  lemma OneWayCountsDoNotAdd(includeLegacy: bool) returns (h: History, sweep: seq<Call>)
    ensures FaithfulSweep(h, {"w"}, sweep) && FleetIdentified({"w"}, {"w"})
    ensures Complete(Responses(sweep), Some({"w"}))
    ensures Ascends(h, {"w"}, 0, sweep[0].start, sweep[5].end) && Descends(h, {"w"}, 1, sweep[0].start, sweep[5].end)
    ensures h.name(0) == h.name(1) == SCHEDULE_TASK && AwaitedTotal(Responses(sweep), includeLegacy) == 1
  {
    h := CrossingHistory();
    sweep := InstantSweep("w", CrossingLists());
    hide FaithfulSweep, FleetIdentified, Complete, Ascends, Descends, AwaitedTotal, CrossingHistory;
    CrossingSweepIsFaithful();
    CrossingNames();
    CrossingWindow();
    CrossingMoves();
    CrossingTotal(includeLegacy);
  }
}
