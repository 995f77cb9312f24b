/**
 * The drain observation of the schedule-dispatch preflight.
 *
 * A queue and three worker lists are read one after the other while tasks keep
 * moving.  The first half models the code that reduces the raw readings to a pair
 * of numbers; the second half gives the readings a meaning over a history of the
 * tasks and states what the pair says about that history.
 */
module Drain {
  import opened Wrappers

  // ----- Raw readings and the code that reduces them -----

  type TaskId = nat

  datatype Stage = ActiveStage | ReservedStage | ScheduledStage

  /** One element of a worker's task list; the name sits in `request` or in the entry itself. */
  datatype TaskEntry =
    | Malformed
    | WithRequest(id: TaskId, requestName: Option<string>)
    | Direct(id: TaskId, name: Option<string>)

  /** A worker's answer; its task list may be missing. */
  datatype WorkerReply = WorkerReply(worker: string, tasks: Option<seq<TaskEntry>>)

  datatype Response = Unavailable | Replies(replies: seq<WorkerReply>)

  datatype InspectError = InspectionUnavailable | InspectionIncomplete

  /** A key returned by the broker scan, with its type and list length. */
  datatype KeyReading = KeyReading(key: string, isList: bool, length: nat)

  const SCHEDULE_TASK := "workflow.execute_scheduled_deployment"
  const LEGACY_DEPLOYMENT_TASK := "workflow.execute_by_deployment"
  const WORKFLOW_QUEUE := "workflow"
  const PRIORITY_SEPARATOR := "\U{06}\U{16}"

  function TaskNames(includeLegacy: bool): set<string> {
    if includeLegacy then {SCHEDULE_TASK, LEGACY_DEPLOYMENT_TASK} else {SCHEDULE_TASK}
  }

  /** The stage asked for by each of the six calls: a palindrome. */
  function CallStage(call: nat): Stage
    requires call < 6
  {
    if call == 0 || call == 5 then ActiveStage
    else if call == 1 || call == 4 then ReservedStage
    else ScheduledStage
  }

  function EntryName(entry: TaskEntry): Option<string> {
    match entry
    case Malformed => None
    case WithRequest(_, name) => name
    case Direct(_, name) => name
  }

  predicate EntryMatches(entry: TaskEntry, names: set<string>) {
    EntryName(entry).Some? && EntryName(entry).value in names
  }

  /** What follows the first `@`, or the whole name without one. */
  function WorkerNodeName(name: string): string {
    if name == [] then []
    else if name[0] == '@' then name[1..]
    else if '@' in name[1..] then WorkerNodeName(name[1..])
    else name
  }

  function NodeNames(replies: seq<WorkerReply>): set<string> {
    if replies == [] then {}
    else NodeNames(replies[..|replies| - 1]) + {WorkerNodeName(replies[|replies| - 1].worker)}
  }

  function Tasks(reply: WorkerReply): seq<TaskEntry> {
    if reply.tasks.Some? then reply.tasks.value else []
  }

  function CountEntries(entries: seq<TaskEntry>, names: set<string>): nat {
    if entries == [] then 0
    else CountEntries(entries[..|entries| - 1], names)
         + if EntryMatches(entries[|entries| - 1], names) then 1 else 0
  }

  function CountReplies(replies: seq<WorkerReply>, names: set<string>): nat {
    if replies == [] then 0
    else CountReplies(replies[..|replies| - 1], names) + CountEntries(Tasks(replies[|replies| - 1]), names)
  }

  function CountResponse(response: Response, names: set<string>): nat {
    if response.Replies? then CountReplies(response.replies, names) else 0
  }

  // ----- What the numbers count -----

  /** The tasks that the preflight waits for; activation also waits for the old deployment task. */
  predicate IsAwaited(name: string, includeLegacy: bool) {
    name == SCHEDULE_TASK || (includeLegacy && name == LEGACY_DEPLOYMENT_TASK)
  }

  /** The entry carries the name, in its request or by itself. */
  predicate Carries(entry: TaskEntry, name: string) {
    (entry.WithRequest? && entry.requestName == Some(name)) || (entry.Direct? && entry.name == Some(name))
  }

  predicate IsAwaitedEntry(entry: TaskEntry, includeLegacy: bool) {
    Carries(entry, SCHEDULE_TASK) || (includeLegacy && Carries(entry, LEGACY_DEPLOYMENT_TASK))
  }

  /** In either mode an entry counts exactly when it carries the name of an awaited task. */
  lemma EntryCountsIff(entry: TaskEntry, includeLegacy: bool)
    ensures EntryMatches(entry, TaskNames(includeLegacy)) <==> IsAwaitedEntry(entry, includeLegacy)
  {
  }

  /** The list positions, worker by worker, that hold awaited tasks. */
  ghost function AwaitedPlaces(replies: seq<WorkerReply>, includeLegacy: bool): set<(int, int)> {
    set i, j | 0 <= i < |replies| && replies[i].tasks.Some? && 0 <= j < |replies[i].tasks.value|
               && IsAwaitedEntry(replies[i].tasks.value[j], includeLegacy) :: (i, j)
  }

  ghost function AwaitedIn(response: Response, includeLegacy: bool): set<(int, int)> {
    if response.Replies? then AwaitedPlaces(response.replies, includeLegacy) else {}
  }

  ghost function EntryPlaces(entries: seq<TaskEntry>, row: int, includeLegacy: bool): set<(int, int)> {
    set j | 0 <= j < |entries| && IsAwaitedEntry(entries[j], includeLegacy) :: (row, j)
  }

  lemma {:induction false} CountEntriesIsExact(entries: seq<TaskEntry>, row: int, includeLegacy: bool)
    ensures CountEntries(entries, TaskNames(includeLegacy)) == |EntryPlaces(entries, row, includeLegacy)|
  {
    if entries != [] {
      var init, last := entries[..|entries| - 1], entries[|entries| - 1];
      CountEntriesIsExact(init, row, includeLegacy);
      EntryCountsIff(last, includeLegacy);
      var before, added := EntryPlaces(init, row, includeLegacy), {(row, |init|)};
      assert EntryPlaces(entries, row, includeLegacy) ==
        before + if IsAwaitedEntry(last, includeLegacy) then added else {};
    }
  }

  /** The count of a response is the number of its list positions that hold awaited tasks. */
  lemma {:induction false} CountIsExact(replies: seq<WorkerReply>, includeLegacy: bool)
    ensures CountReplies(replies, TaskNames(includeLegacy)) == |AwaitedPlaces(replies, includeLegacy)|
  {
    if replies != [] {
      var init, last := replies[..|replies| - 1], replies[|replies| - 1];
      CountIsExact(init, includeLegacy);
      CountEntriesIsExact(Tasks(last), |init|, includeLegacy);
      PlacesOneMore(init, last, includeLegacy);
      assert replies == init + [last];
      hide AwaitedPlaces, EntryPlaces, CountEntries;
    }
  }

  lemma PlacesOneMore(init: seq<WorkerReply>, last: WorkerReply, includeLegacy: bool)
    ensures AwaitedPlaces(init + [last], includeLegacy) ==
      AwaitedPlaces(init, includeLegacy) + EntryPlaces(Tasks(last), |init|, includeLegacy)
    ensures AwaitedPlaces(init, includeLegacy) !! EntryPlaces(Tasks(last), |init|, includeLegacy)
  {
    hide IsAwaitedEntry;
    var all := init + [last];
    forall i, j
      ensures (i, j) in AwaitedPlaces(all, includeLegacy) <==>
        (i, j) in AwaitedPlaces(init, includeLegacy) || (i, j) in EntryPlaces(Tasks(last), |init|, includeLegacy)
    {
      if 0 <= i < |init| { assert all[i] == init[i]; }
    }
  }

  lemma ResponseCountIsExact(response: Response, includeLegacy: bool)
    ensures CountResponse(response, TaskNames(includeLegacy)) == |AwaitedIn(response, includeLegacy)|
  {
    if response.Replies? { CountIsExact(response.replies, includeLegacy); }
  }

  /** The sum, over the three stages, of the larger of that stage's two counts. */
  function SweepTotal(responses: seq<Response>, names: set<string>): nat
    requires |responses| == 6
  {
    Max(CountResponse(responses[0], names), CountResponse(responses[5], names))
    + Max(CountResponse(responses[1], names), CountResponse(responses[4], names))
    + Max(CountResponse(responses[2], names), CountResponse(responses[3], names))
  }

  function Max(a: nat, b: nat): nat { if a < b then b else a }

  /** A response is acceptable beside the first one and the operator's list of nodes. */
  predicate Acceptable(responses: seq<Response>, call: nat, expected: Option<set<string>>)
    requires call < |responses|
  {
    && responses[0].Replies? && responses[call].Replies?
    && NodeNames(responses[call].replies) == NodeNames(responses[0].replies)
    && (expected.Some? ==> NodeNames(responses[call].replies) == expected.value)
  }

  /** Every one of the six calls was answered by the same, expected nodes. */
  predicate Complete(responses: seq<Response>, expected: Option<set<string>>) {
    forall call :: 0 <= call < |responses| ==> Acceptable(responses, call, expected)
  }

  /** The first call whose response is not acceptable. */
  predicate FirstBad(responses: seq<Response>, expected: Option<set<string>>, bad: int) {
    && 0 <= bad < |responses|
    && (forall call :: 0 <= call < bad ==> Acceptable(responses, call, expected))
    && !Acceptable(responses, bad, expected)
  }

  /** The counts collected so far, one list a stage. */
  datatype StateCounts = StateCounts(active: seq<nat>, reserved: seq<nat>, scheduled: seq<nat>)

  function Append(tally: StateCounts, stage: Stage, count: nat): StateCounts {
    match stage
    case ActiveStage => tally.(active := tally.active + [count])
    case ReservedStage => tally.(reserved := tally.reserved + [count])
    case ScheduledStage => tally.(scheduled := tally.scheduled + [count])
  }

  function TallyOf(responses: seq<Response>, names: set<string>, calls: nat): StateCounts
    requires calls <= 6 && |responses| == 6
  {
    if calls == 0 then StateCounts([], [], [])
    else Append(TallyOf(responses, names, calls - 1), CallStage(calls - 1), CountResponse(responses[calls - 1], names))
  }

  lemma SixCallTally(responses: seq<Response>, names: set<string>)
    requires |responses| == 6
    ensures var tally := TallyOf(responses, names, 6);
      && tally.active == [CountResponse(responses[0], names), CountResponse(responses[5], names)]
      && tally.reserved == [CountResponse(responses[1], names), CountResponse(responses[4], names)]
      && tally.scheduled == [CountResponse(responses[2], names), CountResponse(responses[3], names)]
  {
    assert TallyOf(responses, names, 3) == StateCounts(
      [CountResponse(responses[0], names)], [CountResponse(responses[1], names)], [CountResponse(responses[2], names)])
    by { assert TallyOf(responses, names, 1) == StateCounts([CountResponse(responses[0], names)], [], []); }
    assert TallyOf(responses, names, 5).active == [CountResponse(responses[0], names)];
  }

  /** For each stage the larger of its two numbers of awaited tasks, added up. */
  ghost function AwaitedTotal(responses: seq<Response>, includeLegacy: bool): nat
    requires |responses| == 6
  {
    Max(|AwaitedIn(responses[0], includeLegacy)|, |AwaitedIn(responses[5], includeLegacy)|)
    + Max(|AwaitedIn(responses[1], includeLegacy)|, |AwaitedIn(responses[4], includeLegacy)|)
    + Max(|AwaitedIn(responses[2], includeLegacy)|, |AwaitedIn(responses[3], includeLegacy)|)
  }

  lemma SweepTotalIsExact(responses: seq<Response>, includeLegacy: bool)
    requires |responses| == 6
    ensures SweepTotal(responses, TaskNames(includeLegacy)) == AwaitedTotal(responses, includeLegacy)
    ensures AwaitedTotal(responses, includeLegacy) == 0 <==>
      forall k :: 0 <= k < 6 ==> AwaitedIn(responses[k], includeLegacy) == {}
  {
    forall k | 0 <= k < 6
      ensures CountResponse(responses[k], TaskNames(includeLegacy)) == |AwaitedIn(responses[k], includeLegacy)|
    {
      ResponseCountIsExact(responses[k], includeLegacy);
    }
  }

  /** The node name is what follows the first `@`. */
  lemma {:induction false} NodeNameFollowsAt(host: string, node: string)
    requires '@' !in host
    ensures WorkerNodeName(host + ['@'] + node) == node && WorkerNodeName(host) == host
  {
    if host != [] {
      NodeNameFollowsAt(host[1..], node);
      assert (host + ['@'] + node)[1..] == host[1..] + ['@'] + node;
    }
  }

  lemma {:induction false} NodeNamesAreTheWorkers(replies: seq<WorkerReply>)
    ensures NodeNames(replies) == set i | 0 <= i < |replies| :: WorkerNodeName(replies[i].worker)
  {
    if replies != [] {
      NodeNamesAreTheWorkers(replies[..|replies| - 1]);
    }
  }

  /** Complete are exactly responses that all came, from the same nodes, and from the listed ones. */
  lemma CompleteIff(responses: seq<Response>, expected: Option<set<string>>)
    ensures Complete(responses, expected) <==>
      && (forall k :: 0 <= k < |responses| ==> responses[k].Replies?)
      && (forall j, k :: 0 <= j < k < |responses| ==>
        NodeNames(responses[j].replies) == NodeNames(responses[k].replies))
      && (expected.Some? ==> forall k :: 0 <= k < |responses| ==> NodeNames(responses[k].replies) == expected.value)
  {
    if Complete(responses, expected) {
      forall k | 0 <= k < |responses|
        ensures responses[k].Replies? && responses[0].Replies?
        ensures NodeNames(responses[k].replies) == NodeNames(responses[0].replies)
        ensures expected.Some? ==> NodeNames(responses[k].replies) == expected.value
      {
        assert Acceptable(responses, k, expected);
      }
    }
  }

  method ResponseNodes(replies: seq<WorkerReply>) returns (nodes: set<string>)
    ensures nodes == NodeNames(replies)
  {
    nodes := {};
    for i := 0 to |replies|
      invariant nodes == NodeNames(replies[..i])
    {
      nodes := nodes + {WorkerNodeName(replies[i].worker)};
      assert replies[..i + 1][..i] == replies[..i];
    }
    assert replies[..|replies|] == replies;
  }

  method CountMatching(replies: seq<WorkerReply>, names: set<string>) returns (count: nat)
    ensures count == CountReplies(replies, names)
  {
    count := 0;
    for i := 0 to |replies|
      invariant count == CountReplies(replies[..i], names)
    {
      var tasks := Tasks(replies[i]);
      assert replies[..i + 1][..i] == replies[..i];
      for j := 0 to |tasks|
        invariant count == CountReplies(replies[..i], names) + CountEntries(tasks[..j], names)
      {
        assert tasks[..j + 1][..j] == tasks[..j];
        if EntryMatches(tasks[j], names) {
          count := count + 1;
        }
      }
      assert tasks[..|tasks|] == tasks;
    }
    assert replies[..|replies|] == replies;
  }

  /** The checks made on one response before it is counted; `first` is the node set of the first one. */
  method CheckResponse(responses: seq<Response>, call: nat, first: Option<set<string>>, expected: Option<set<string>>)
    returns (error: Option<InspectError>, nodes: set<string>)
    requires call < |responses|
    requires first.Some? <==> call > 0
    requires call > 0 ==> responses[0].Replies? && first.value == NodeNames(responses[0].replies)
    ensures error.None? <==> Acceptable(responses, call, expected)
    ensures error.None? ==> nodes == NodeNames(responses[call].replies)
    ensures error.Some? ==> (error.value.InspectionUnavailable? <==> responses[call].Unavailable?)
  {
    error, nodes := None, {};
    if responses[call].Unavailable? {
      return Some(InspectionUnavailable), nodes;
    }
    nodes := ResponseNodes(responses[call].replies);
    if first.Some? && nodes != first.value {
      return Some(InspectionIncomplete), nodes;
    }
    if expected.Some? && nodes != expected.value {
      return Some(InspectionIncomplete), nodes;
    }
  }

  /** The six-call sweep: fails unless complete, otherwise the sum over the stages of the larger count. */
  method ActiveScheduleTaskCount(responses: seq<Response>, includeLegacy: bool, expected: Option<set<string>>)
    returns (r: Result<nat, InspectError>)
    requires |responses| == 6
    ensures r.Success? <==> Complete(responses, expected)
    ensures r.Success? ==> r.value == AwaitedTotal(responses, includeLegacy)
    ensures r.Failure? ==>
      exists bad :: FirstBad(responses, expected, bad) && (r.error.InspectionUnavailable? <==> responses[bad].Unavailable?)
  {
    var names := TaskNames(includeLegacy);
    var tally := StateCounts([], [], []);
    var observed: Option<set<string>> := None;
    for call := 0 to 6
      invariant observed.Some? <==> call > 0
      invariant call > 0 ==> responses[0].Replies? && observed.value == NodeNames(responses[0].replies)
      invariant forall c :: 0 <= c < call ==> Acceptable(responses, c, expected)
      invariant tally == TallyOf(responses, names, call)
    {
      var error, nodes := CheckResponse(responses, call, observed, expected);
      if error.Some? {
        assert FirstBad(responses, expected, call);
        return Failure(error.value);
      }
      observed := Some(if observed.Some? then observed.value else nodes);
      var count := CountMatching(responses[call].replies, names);
      tally := Append(tally, CallStage(call), count);
    }
    SixCallTally(responses, names);
    SweepTotalIsExact(responses, includeLegacy);
    r := Success(Max(tally.active[0], tally.active[1]) + Max(tally.reserved[0], tally.reserved[1])
                 + Max(tally.scheduled[0], tally.scheduled[1]));
  }

  predicate IsWorkflowKey(key: string) {
    key == WORKFLOW_QUEUE || WORKFLOW_QUEUE + PRIORITY_SEPARATOR <= key
  }

  predicate CountsTowardsDepth(reading: KeyReading) {
    IsWorkflowKey(reading.key) && reading.isList && reading.length > 0
  }

  /** The keys of the workflow queue: its own, and those of its priorities. */
  lemma WorkflowKeys(key: string)
    ensures IsWorkflowKey(key) <==>
      key == "workflow" || exists priority :: key == "workflow" + ['\U{06}', '\U{16}'] + priority
  {
    var base := WORKFLOW_QUEUE + PRIORITY_SEPARATOR;
    assert base == "workflow" + ['\U{06}', '\U{16}'];
    if base <= key {
      assert key == base + key[|base|..];
    }
  }

  /** Adds up the list keys of the workflow queue; zero exactly when none of them holds anything. */
  method WorkflowQueueDepth(readings: seq<KeyReading>) returns (depth: nat)
    ensures depth == 0 <==> NothingQueued(readings)
    ensures depth == QueueDepth(readings)
  {
    depth := 0;
    for i := 0 to |readings|
      invariant depth == QueueDepth(readings[..i])
    {
      assert readings[..i + 1][..i] == readings[..i];
      if IsWorkflowKey(readings[i].key) && readings[i].isList {
        depth := depth + readings[i].length;
      }
    }
    assert readings[..|readings|] == readings;
    DepthZero(readings);
  }

  function QueueDepth(readings: seq<KeyReading>): nat {
    if readings == [] then 0
    else
      var last := readings[|readings| - 1];
      QueueDepth(readings[..|readings| - 1]) + if IsWorkflowKey(last.key) && last.isList then last.length else 0
  }

  lemma {:induction false} DepthZero(readings: seq<KeyReading>)
    ensures QueueDepth(readings) == 0 <==> NothingQueued(readings)
  {
    if readings != [] {
      var init := readings[..|readings| - 1];
      DepthZero(init);
      assert forall i :: 0 <= i < |init| ==> init[i] == readings[i];
    }
  }

  /** The depth adds up over the keys, each list key of the workflow queue with its length. */
  lemma {:induction false} QueueDepthAdds(first: seq<KeyReading>, second: seq<KeyReading>, one: KeyReading)
    ensures QueueDepth(first + second) == QueueDepth(first) + QueueDepth(second)
    ensures QueueDepth([one]) == if IsWorkflowKey(one.key) && one.isList then one.length else 0
  {
    assert [one][..0] == [];
    if second == [] {
      assert first + second == first;
    } else {
      var init := second[..|second| - 1];
      QueueDepthAdds(first, init, one);
      assert (first + second)[..|first + second| - 1] == first + init;
    }
  }

  // ----- Observations -----

  /** A sweep: the six responses, and when each call and each reply in it happened. */
  datatype Call = Call(response: Response, start: nat, end: nat, repliedAt: seq<nat>)

  datatype QueueRead = QueueRead(readings: seq<KeyReading>, start: nat, end: nat, readAt: seq<nat>)

  datatype Observation = Observation(
    queuedBefore: QueueRead, activeBefore: seq<Call>, queuedAfter: QueueRead, activeAfter: seq<Call>)

  function Responses(sweep: seq<Call>): (rs: seq<Response>)
    ensures |rs| == |sweep| && forall i :: 0 <= i < |sweep| ==> rs[i] == sweep[i].response
  {
    seq(|sweep|, i requires 0 <= i < |sweep| => sweep[i].response)
  }

  /** A complete sweep that lists no awaited task in any of its responses. */
  ghost predicate SweepEmpty(sweep: seq<Call>, includeLegacy: bool, expected: set<string>)
    requires |sweep| == 6
  {
    && Complete(Responses(sweep), Some(expected))
    && forall k :: 0 <= k < 6 ==> AwaitedIn(sweep[k].response, includeLegacy) == {}
  }

  /** No list on a key of the workflow queue holds anything. */
  predicate NothingQueued(readings: seq<KeyReading>) {
    forall i :: 0 <= i < |readings| ==> !CountsTowardsDepth(readings[i])
  }

  ghost predicate ObservationEmpty(o: Observation, includeLegacy: bool, expected: set<string>)
    requires |o.activeBefore| == 6 && |o.activeAfter| == 6
  {
    && NothingQueued(o.queuedBefore.readings) && NothingQueued(o.queuedAfter.readings)
    && SweepEmpty(o.activeBefore, includeLegacy, expected) && SweepEmpty(o.activeAfter, includeLegacy, expected)
  }

  predicate SweepsHaveSixCalls(run: seq<Observation>) {
    forall k :: 0 <= k < |run| ==> |run[k].activeBefore| == 6 && |run[k].activeAfter| == 6
  }

  /**
   * Repeated observation.  (0, 0) comes out exactly when every observation was empty;
   * anything else is decided by the first observation that was not.
   */
  method ObserveStableDrain(run: seq<Observation>, includeLegacy: bool, expected: set<string>)
    returns (r: Result<(nat, nat), InspectError>)
    requires SweepsHaveSixCalls(run)
    ensures r == Success((0, 0)) <==> forall k :: 0 <= k < |run| ==> ObservationEmpty(run[k], includeLegacy, expected)
    ensures r != Success((0, 0)) ==> exists k | 0 <= k < |run| ::
        (forall e :: 0 <= e < k ==> ObservationEmpty(run[e], includeLegacy, expected))
        && DecidedBy(run[k], includeLegacy, expected, r)
  {
    hide AwaitedTotal, QueueDepth, Complete, TaskNames, AwaitedIn, NothingQueued;
    var activeTasks, queuedTasks: nat := 0, 0;
    for k := 0 to |run|
      invariant activeTasks == 0 && queuedTasks == 0
      invariant forall e :: 0 <= e < k ==> ObservationEmpty(run[e], includeLegacy, expected)
    {
      var queuedBefore := WorkflowQueueDepth(run[k].queuedBefore.readings);
      var activeBefore := ActiveScheduleTaskCount(Responses(run[k].activeBefore), includeLegacy, Some(expected));
      if activeBefore.Failure? {
        return Failure(activeBefore.error);
      }
      var queuedAfter := WorkflowQueueDepth(run[k].queuedAfter.readings);
      var activeAfter := ActiveScheduleTaskCount(Responses(run[k].activeAfter), includeLegacy, Some(expected));
      if activeAfter.Failure? {
        return Failure(activeAfter.error);
      }
      SweepTotalIsExact(Responses(run[k].activeBefore), includeLegacy);
      SweepTotalIsExact(Responses(run[k].activeAfter), includeLegacy);
      activeTasks := Max(activeBefore.value, activeAfter.value);
      queuedTasks := Max(queuedBefore, queuedAfter);
      if activeTasks != 0 || queuedTasks != 0 {
        return Success((activeTasks, queuedTasks));
      }
    }
    r := Success((activeTasks, queuedTasks));
  }

  /** The pair reported from one observation takes the larger reading of each kind. */
  ghost predicate DecidedBy(o: Observation, includeLegacy: bool, expected: set<string>, r: Result<(nat, nat), InspectError>)
    requires |o.activeBefore| == 6 && |o.activeAfter| == 6
  {
    var before, after := Responses(o.activeBefore), Responses(o.activeAfter);
    match r
    case Failure(_) => !Complete(before, Some(expected)) || !Complete(after, Some(expected))
    case Success((active, queued)) =>
      && (active > 0 || queued > 0)
      && Complete(before, Some(expected)) && Complete(after, Some(expected))
      && queued == Max(QueueDepth(o.queuedBefore.readings), QueueDepth(o.queuedAfter.readings))
      && active == Max(AwaitedTotal(before, includeLegacy), AwaitedTotal(after, includeLegacy))
  }
}
