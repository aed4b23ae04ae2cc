/**
  The interactive turn supervisor (coke/worker/interactive_supervisor.py) as steps on a value.
  None of its methods suspends, so each call is one step; the tasks of the event loop are the
  positions of `tasks`. `ledger` is history: every submission accepted, and what became of it.
*/
module Supervisor {
  import opened Options
  import opened TurnTask

  type ConversationId(==, !new)
  type RunId(==, !new)

  datatype Mode = Interactive | Render

  /** `retryCount` is the payload's "_worker_retry_count" when it reads as a number. */
  datatype Trigger = Trigger(triggerId: RunId, conversation: ConversationId, mode: Mode, agentRunId: Option<RunId>,
    retryCount: Option<int>)

  function RunIdOf(t: Trigger): RunId { if t.agentRunId.Some? then t.agentRunId.value else t.triggerId }

  function WithRunId(t: Trigger): Trigger { t.(agentRunId := Some(RunIdOf(t))) }

  /** A trigger together with its number in the order of acceptance. */
  datatype Submission = Submission(id: nat, trigger: Trigger)

  datatype ActiveTurn = ActiveTurn(sub: Submission, task: nat, runId: RunId)
  datatype RetiredTurn = RetiredTurn(turn: ActiveTurn, publishCompletion: bool)

  datatype CancelStatus = Running | Ended | Broken
  datatype CancelTask = CancelTask(trigger: Option<Trigger>, runId: RunId, status: CancelStatus)

  datatype Completion = Completion(sub: Submission, result: TurnResult)
  datatype Failure = TurnFailure(sub: Submission) | ProviderFailure(trigger: Option<Trigger>)

  /** What became of a submission. `Arriving` is the moment between acceptance and its place. */
  datatype Fate =
    | Arriving
    | Active(task: nat)
    | Waiting
    | Retired(task: nat, newer: nat)
    | Replaced(newer: nat)
    | Collected(task: nat, superseded: Option<nat>, outcome: Outcome)

  /** `parent` is the failed submission this one retries, `child` the one that retries it. */
  datatype Entry = Entry(trigger: Trigger, parent: Option<nat>, child: Option<nat>, fate: Fate)

  datatype State = State(
    active: map<ConversationId, ActiveTurn>,
    pending: map<ConversationId, Submission>,
    retired: seq<RetiredTurn>,
    cancels: seq<CancelTask>,
    completed: seq<Completion>,
    failures: seq<Failure>,
    tasks: seq<Task>,
    ledger: seq<Entry>,
    collected: seq<Completion>,  // history: every completion ever queued for publishing
    failed: seq<Failure>)        // history: every failure ever queued

  const START := State(map[], map[], [], [], [], [], [], [], [], [])

  function SetFate(s: State, n: nat, f: Fate): State {
    if n < |s.ledger| then s.(ledger := s.ledger[n := s.ledger[n].(fate := f)]) else s
  }

  predicate IsDone(s: State, task: nat) { task < |s.tasks| && s.tasks[task].outcome.Some? }

  predicate IsClosed(s: State, task: nat) { task < |s.tasks| && s.tasks[task].closeCommitted }

  /** Each waiting submission stands under its own conversation. */
  ghost predicate PendingKeyed(s: State) {
    forall c :: c in s.pending ==> s.pending[c].trigger.conversation == c
  }

  // -------------------------------------------------------------------- the methods

  /** `_start_trigger` */
  function StartTrigger(s: State, sub: Submission): State {
    var trigger := WithRunId(sub.trigger);
    var task := |s.tasks|;
    SetFate(s.(tasks := s.tasks + [NewTask(sub.id)],
               active := s.active[trigger.conversation :=
                                    ActiveTurn(Submission(sub.id, trigger), task, RunIdOf(trigger))]),
            sub.id, Active(task))
  }

  /** A waiting submission leaves `_pending`. */
  function TakePending(s: State, c: ConversationId): State
    requires c in s.pending
  {
    SetFate(s.(pending := s.pending - {c}), s.pending[c].id, Arriving)
  }

  /** `_start_pending_if_any` */
  function StartPendingIfAny(s: State, c: ConversationId): State {
    if c in s.pending then StartTrigger(TakePending(s, c), s.pending[c]) else s
  }

  /** History: the turn's submission ends here, superseded or not. */
  function MarkCollected(s: State, a: ActiveTurn): State
    requires IsDone(s, a.task)
  {
    var superseded := if a.sub.id < |s.ledger| && s.ledger[a.sub.id].fate.Retired?
      then Some(s.ledger[a.sub.id].fate.newer) else None;
    SetFate(s, a.sub.id, Collected(a.task, superseded, s.tasks[a.task].outcome.value))
  }

  /** `_collect_task_result`, for a task that is done. */
  function QueueResult(s: State, a: ActiveTurn, publish: bool): State
    requires IsDone(s, a.task)
  {
    match s.tasks[a.task].outcome.value
    case Cancelled => s
    case Failed => s.(failures := s.failures + [TurnFailure(a.sub)], failed := s.failed + [TurnFailure(a.sub)])
    case Value(result) =>
      var completion := Completion(a.sub, result);
      if publish then s.(completed := s.completed + [completion], collected := s.collected + [completion]) else s
  }

  function CollectTaskResult(s: State, a: ActiveTurn, publish: bool): State
    requires IsDone(s, a.task)
  {
    QueueResult(MarkCollected(s, a), a, publish)
  }

  /** The first half of `_collect_completed`: the turn leaves `_active` and its result is taken. */
  function CollectActive(s: State, c: ConversationId): State
    requires c in s.active && IsDone(s, s.active[c].task)
  {
    CollectTaskResult(s.(active := s.active - {c}), s.active[c], true)
  }

  /** `_collect_completed` */
  function CollectCompleted(s: State, c: ConversationId): State
    requires c in s.active && IsDone(s, s.active[c].task)
  {
    StartPendingIfAny(CollectActive(s, c), c)
  }

  /** A trigger is accepted and numbered; a retry names the failed submission it retries. */
  function Arrive(s: State, t: Trigger, parent: Option<nat>): State {
    var n := |s.ledger|;
    var linked := if parent.Some? && parent.value < n
      then s.ledger[parent.value := s.ledger[parent.value].(child := Some(n))] else s.ledger;
    s.(ledger := linked + [Entry(WithRunId(t), parent, None, Arriving)])
  }

  /** A waiting submission gives way to a newer one of its conversation. */
  function Displace(s: State, c: ConversationId, newer: nat): State
    requires c in s.pending
  {
    SetFate(s.(pending := s.pending - {c}), s.pending[c].id, Replaced(newer))
  }

  function Enqueue(s: State, sub: Submission): State {
    SetFate(s.(pending := s.pending[sub.trigger.conversation := sub]), sub.id, Waiting)
  }

  /** The newest submission waits behind the active turn, replacing one that waited before. */
  function Wait(s: State, sub: Submission): State {
    var c := sub.trigger.conversation;
    Enqueue(if c in s.pending then Displace(s, c, sub.id) else s, sub)
  }

  /** The active turn is asked to cancel and moves to `_retired`, superseded by submission `newer`. */
  function Retire(s: State, c: ConversationId, newer: nat): State
    requires c in s.active
  {
    var a := s.active[c];
    var cancelled := if a.task < |s.tasks| then s.tasks[a.task := s.tasks[a.task].(cancelRequested := true)]
      else s.tasks;
    SetFate(s.(tasks := cancelled,
               retired := s.retired + [RetiredTurn(a, false)],
               cancels := s.cancels + [CancelTask(Some(a.sub.trigger), a.runId, Running)],
               active := s.active - {c}),
            a.sub.id, Retired(a.task, newer))
  }

  /** `submit` */
  function Submit(s: State, t: Trigger, parent: Option<nat>): State {
    var c := t.conversation;
    var s1 := if c in s.active && IsDone(s, s.active[c].task) then CollectCompleted(s, c) else s;
    var sub := Submission(|s1.ledger|, WithRunId(t));
    var s2 := Arrive(s1, t, parent);
    if c in s2.active then
      if IsClosed(s2, s2.active[c].task) then Wait(s2, sub)
      else StartTrigger(Retire(s2, c, sub.id), sub)
    else StartTrigger(s2, sub)
  }

  /** `_collect_done_retired`, from position `k` on. */
  function CollectDoneRetired(s: State, k: nat): (r: State)
    ensures |r.retired| <= |s.retired|
    decreases |s.retired| - k
  {
    if k >= |s.retired| then s
    else
      var turn := s.retired[k];
      if IsDone(s, turn.turn.task)
      then CollectDoneRetired(CollectRetired(s, k), k)
      else CollectDoneRetired(s, k + 1)
  }

  /** One done retired turn leaves `_retired` and its result is taken. */
  function CollectRetired(s: State, k: nat): (r: State)
    requires k < |s.retired| && IsDone(s, s.retired[k].turn.task)
    ensures r.retired == s.retired[..k] + s.retired[k + 1..]
  {
    CollectTaskResult(s.(retired := s.retired[..k] + s.retired[k + 1..]), s.retired[k].turn,
      s.retired[k].publishCompletion)
  }

  function StillRunning(cs: seq<CancelTask>): seq<CancelTask> {
    if cs == [] then []
    else if cs[|cs| - 1].status.Running? then StillRunning(cs[..|cs| - 1]) + [cs[|cs| - 1]]
    else StillRunning(cs[..|cs| - 1])
  }

  function BrokenCancels(cs: seq<CancelTask>): (r: seq<Failure>)
    ensures forall k :: 0 <= k < |r| ==> r[k].ProviderFailure?
  {
    if cs == [] then []
    else if cs[|cs| - 1].status.Broken? then BrokenCancels(cs[..|cs| - 1]) + [ProviderFailure(cs[|cs| - 1].trigger)]
    else BrokenCancels(cs[..|cs| - 1])
  }

  /** `_collect_done_cancel_tasks` */
  function CollectDoneCancels(s: State): State {
    var broken := BrokenCancels(s.cancels);
    s.(cancels := StillRunning(s.cancels), failures := s.failures + broken, failed := s.failed + broken)
  }

  /** The loop over `_active` in the drains, in the given order. */
  function CollectDoneActive(s: State, order: seq<ConversationId>): State {
    if order == [] then s
    else
      var s' := CollectDoneActive(s, order[..|order| - 1]);
      var c := order[|order| - 1];
      if c in s'.active && IsDone(s', s'.active[c].task) then CollectCompleted(s', c) else s'
  }

  function CollectAll(s: State, order: seq<ConversationId>): State {
    CollectDoneActive(CollectDoneCancels(CollectDoneRetired(s, 0)), order)
  }

  /** `drain_completed`: the state after it; it returns what `CollectAll` left in `_completed`. */
  function DrainCompleted(s: State, order: seq<ConversationId>): State { CollectAll(s, order).(completed := []) }

  /** `drain_failures`: the state after it; it returns what `CollectAll` left in `_failures`. */
  function DrainFailures(s: State, order: seq<ConversationId>): State { CollectAll(s, order).(failures := []) }

  /** `restore_completed` */
  function RestoreCompleted(s: State, completed: seq<Completion>): State { s.(completed := completed + s.completed) }

  predicate HasCompletion(s: State, c: ConversationId) {
    exists k :: 0 <= k < |s.completed| && s.completed[k].sub.trigger.conversation == c
  }

  /** The state `submit_if_idle` decides on. */
  function BeforeIdleSubmit(s: State, c: ConversationId): State {
    var s1 := CollectDoneCancels(CollectDoneRetired(s, 0));
    if c in s1.active && IsDone(s1, s1.active[c].task) then CollectCompleted(s1, c) else s1
  }

  predicate IsIdle(s: State, c: ConversationId) {
    c !in s.active && c !in s.pending && !HasCompletion(s, c)
  }

  /** `submit_if_idle` */
  function SubmitIfIdle(s: State, t: Trigger, parent: Option<nat>): State {
    var s1 := BeforeIdleSubmit(s, t.conversation);
    if IsIdle(s1, t.conversation) then Submit(s1, t, parent) else s1
  }

  /** One cancel for each run id, in order; `None` stands for an entry that is no string, or empty. */
  function CancelTasksFor(runIds: seq<Option<RunId>>, trigger: Option<Trigger>): seq<CancelTask> {
    if runIds == [] then []
    else
      var rest := CancelTasksFor(runIds[..|runIds| - 1], trigger);
      match runIds[|runIds| - 1]
      case None => rest
      case Some(runId) => rest + [CancelTask(trigger, runId, Running)]
  }

  /** `cancel_provider_runs` */
  function CancelProviderRuns(s: State, runIds: seq<Option<RunId>>, trigger: Option<Trigger>): State {
    var s1 := CollectDoneCancels(s);
    s1.(cancels := s1.cancels + CancelTasksFor(runIds, trigger))
  }

  // ---------------------------------------------------------------- the environment

  /** A task runs one of its pieces. */
  function TaskActs(s: State, i: nat, a: Action): State
    requires i < |s.tasks|
  {
    s.(tasks := s.tasks[i := Act(s.tasks[i], a)])
  }

  /** A provider cancel request ends, well or badly. */
  function CancelEnds(s: State, k: nat, status: CancelStatus): State
    requires k < |s.cancels|
  {
    if s.cancels[k].status.Running? then s.(cancels := s.cancels[k := s.cancels[k].(status := status)]) else s
  }

  /** What the event loop does between two calls of the supervisor. */
  datatype Move = TaskMoves(task: nat, action: Action) | CancelMoves(cancel: nat, status: CancelStatus)

  function Moved(s: State, moves: seq<Move>): (r: State)
    ensures r.active == s.active && r.pending == s.pending && r.completed == s.completed
  {
    if moves == [] then s
    else
      var before := Moved(s, moves[..|moves| - 1]);
      match moves[|moves| - 1]
      case TaskMoves(i, a) => if i < |before.tasks| then TaskActs(before, i, a) else before
      case CancelMoves(k, status) => if k < |before.cancels| then CancelEnds(before, k, status) else before
  }
}
