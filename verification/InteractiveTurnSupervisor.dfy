/**
  The supervisor as the object it is: methods that update its containers, each proved against the
  step of module Supervisor with the same name (coke/worker/interactive_supervisor.py).
*/
module InteractiveTurnSupervisors {
  import opened Options
  import opened TurnTask
  import opened Supervisor
  import S = Supervisor

  /** One round of the loop over `_retired`. */
  lemma NextRetired(s: State, waiting: seq<RetiredTurn>, turns: seq<RetiredTurn>, i: nat)
    requires i < |turns|
    ensures var before := s.(retired := waiting + turns[i..]); var turn := turns[i];
            S.CollectDoneRetired(before, |waiting|) ==
            if IsDone(s, turn.turn.task)
            then
              var collected := S.CollectTaskResult(s, turn.turn, turn.publishCompletion);
              S.CollectDoneRetired(collected.(retired := waiting + turns[i + 1..]), |waiting|)
            else S.CollectDoneRetired(s.(retired := (waiting + [turn]) + turns[i + 1..]), |waiting + [turn]|)
  {
    assert waiting + turns[i..] == (waiting + [turns[i]]) + turns[i + 1..];
    assert (waiting + turns[i..])[|waiting|] == turns[i];
    if IsDone(s, turns[i].turn.task) {
      TakeRetired(s, waiting, turns[i], turns[i + 1..]);
    }
  }

  lemma TakeRetired(s: State, waiting: seq<RetiredTurn>, turn: RetiredTurn, rest: seq<RetiredTurn>)
    requires IsDone(s, turn.turn.task)
    ensures CollectRetired(s.(retired := (waiting + [turn]) + rest), |waiting|)
            == S.CollectTaskResult(s, turn.turn, turn.publishCompletion).(retired := waiting + rest)
  {
    var before := s.(retired := (waiting + [turn]) + rest);
    assert before.retired[..|waiting|] + before.retired[|waiting| + 1..] == waiting + rest;
    assert before.(retired := waiting + rest) == s.(retired := waiting + rest);
    CollectIgnoresRetired(s, turn.turn, turn.publishCompletion, waiting + rest);
  }

  lemma CollectIgnoresRetired(s: State, a: ActiveTurn, publish: bool, turns: seq<RetiredTurn>)
    requires IsDone(s, a.task)
    ensures S.CollectTaskResult(s.(retired := turns), a, publish)
            == S.CollectTaskResult(s, a, publish).(retired := turns)
  {
  }

  /** `order` is an order in which the dictionary of active turns can be walked. */
  ghost predicate Walks(s: State, order: seq<ConversationId>) {
    && (forall j, k :: 0 <= j < k < |order| ==> order[j] != order[k])
    && (forall c :: c in order <==> c in s.active)
  }

  lemma OthersStayActive(s: State, c: ConversationId)
    requires c in s.active && IsDone(s, s.active[c].task) && PendingKeyed(s)
    ensures forall d :: d in s.active && d != c ==>
            d in S.CollectCompleted(s, c).active && S.CollectCompleted(s, c).active[d] == s.active[d]
    ensures PendingKeyed(S.CollectCompleted(s, c))
  {
    var s1 := CollectActive(s, c);
    assert s1.pending == s.pending && s1.active == s.active - {c};
  }

  class InteractiveTurnSupervisor {
    var active: map<ConversationId, ActiveTurn>
    var pending: map<ConversationId, Submission>
    var retired: seq<RetiredTurn>
    var cancelTasks: seq<CancelTask>
    var completed: seq<Completion>
    var failures: seq<Failure>
    var tasks: seq<Task>             // the tasks created so far
    var ledger: seq<Entry>           // history: the submissions accepted so far
    var collected: seq<Completion>   // history: the completions ever queued
    var failed: seq<Failure>         // history: the failures ever queued

    constructor ()
      ensures Value() == START
    {
      active, pending, retired, cancelTasks := map[], map[], [], [];
      completed, failures, tasks, ledger, collected, failed := [], [], [], [], [], [];
    }

    ghost function Value(): State
      reads this
    {
      State(active, pending, retired, cancelTasks, completed, failures, tasks, ledger, collected, failed)
    }

    predicate Done(task: nat)
      reads this
    {
      task < |tasks| && tasks[task].outcome.Some?
    }

    method Mark(n: nat, fate: Fate)
      modifies this`ledger
      ensures Value() == SetFate(old(Value()), n, fate)
    {
      if n < |ledger| {
        ledger := ledger[n := ledger[n].(fate := fate)];
      }
    }

    method StartTrigger(sub: Submission)
      modifies this
      ensures Value() == S.StartTrigger(old(Value()), sub)
    {
      var runId := RunIdOf(sub.trigger);
      var trigger := sub.trigger.(agentRunId := Some(runId));
      tasks := tasks + [NewTask(sub.id)];
      active := active[trigger.conversation := ActiveTurn(Submission(sub.id, trigger), |tasks| - 1, runId)];
      Mark(sub.id, Fate.Active(|tasks| - 1));
    }

    method StartPendingIfAny(c: ConversationId)
      modifies this
      ensures Value() == S.StartPendingIfAny(old(Value()), c)
    {
      if c in pending {
        var sub := pending[c];
        pending := pending - {c};
        Mark(sub.id, Arriving);
        StartTrigger(sub);
      }
    }

    method CollectTaskResult(turn: ActiveTurn, publishCompletion: bool)
      requires Done(turn.task)
      modifies `completed, `failures, `ledger, `collected, `failed
      ensures Value() == S.CollectTaskResult(old(Value()), turn, publishCompletion)
    {
      var outcome := tasks[turn.task].outcome.value;
      var superseded := if turn.sub.id < |ledger| && ledger[turn.sub.id].fate.Retired?
        then Some(ledger[turn.sub.id].fate.newer) else None;
      Mark(turn.sub.id, Collected(turn.task, superseded, outcome));
      match outcome
      case Cancelled =>
      case Failed =>
        failures := failures + [TurnFailure(turn.sub)];
        failed := failed + [TurnFailure(turn.sub)];
      case Value(result) =>
        if publishCompletion {
          completed := completed + [Completion(turn.sub, result)];
          collected := collected + [Completion(turn.sub, result)];
        }
    }

    method CollectCompleted(c: ConversationId, turn: ActiveTurn)
      requires c in active && active[c] == turn && Done(turn.task)
      modifies this
      ensures Value() == S.CollectCompleted(old(Value()), c)
    {
      active := active - {c};
      CollectTaskResult(turn, true);
      StartPendingIfAny(c);
    }

    method Submit(t: Trigger, parent: Option<nat>)
      modifies this
      ensures Value() == S.Submit(old(Value()), t, parent)
    {
      var trigger := WithRunId(t);
      var c := trigger.conversation;
      if c in active && Done(active[c].task) {
        CollectCompleted(c, active[c]);
      }
      var sub := Submission(|ledger|, trigger);
      Accept(t, parent);
      if c in active {
        var existing := active[c];
        if existing.task < |tasks| && tasks[existing.task].closeCommitted {
          WaitBehind(sub);
          return;
        }
        Cancel(existing, c, sub.id);
      }
      StartTrigger(sub);
    }

    method Accept(t: Trigger, parent: Option<nat>)
      modifies this`ledger
      ensures Value() == Arrive(old(Value()), t, parent)
    {
      var n := |ledger|;
      if parent.Some? && parent.value < n {
        ledger := ledger[parent.value := ledger[parent.value].(child := Some(n))];
      }
      ledger := ledger + [Entry(WithRunId(t), parent, None, Arriving)];
    }

    method WaitBehind(sub: Submission)
      modifies this
      ensures Value() == Wait(old(Value()), sub)
    {
      var c := sub.trigger.conversation;
      if c in pending {
        Mark(pending[c].id, Replaced(sub.id));
      }
      pending := pending[c := sub];
      Mark(sub.id, Waiting);
    }

    method Cancel(existing: ActiveTurn, c: ConversationId, newer: nat)
      requires c in active && active[c] == existing
      modifies this
      ensures Value() == Retire(old(Value()), c, newer)
    {
      if existing.task < |tasks| {
        tasks := tasks[existing.task := tasks[existing.task].(cancelRequested := true)];
      }
      retired := retired + [RetiredTurn(existing, false)];
      cancelTasks := cancelTasks + [CancelTask(Some(existing.sub.trigger), existing.runId, Running)];
      active := active - {c};
      Mark(existing.sub.id, Fate.Retired(existing.task, newer));
    }

    method CollectDoneRetired()
      modifies `retired, `completed, `failures, `ledger, `collected, `failed
      ensures Value() == S.CollectDoneRetired(old(Value()), 0)
    {
      var waiting: seq<RetiredTurn> := [];
      var turns := retired;
      assert waiting + turns[0..] == retired;
      for i := 0 to |turns|
        invariant S.CollectDoneRetired(old(Value()), 0)
                  == S.CollectDoneRetired(Value().(retired := waiting + turns[i..]), |waiting|)
      {
        NextRetired(Value(), waiting, turns, i);
        if Done(turns[i].turn.task) {
          CollectTaskResult(turns[i].turn, turns[i].publishCompletion);
        } else {
          waiting := waiting + [turns[i]];
        }
      }
      assert waiting + turns[|turns|..] == waiting;
      retired := waiting;
    }

    method CollectDoneCancelTasks()
      modifies `cancelTasks, `failures, `failed
      ensures Value() == CollectDoneCancels(old(Value()))
    {
      var running: seq<CancelTask> := [];
      for i := 0 to |cancelTasks|
        invariant cancelTasks == old(cancelTasks)
        invariant running == StillRunning(cancelTasks[..i])
        invariant failures == old(failures) + BrokenCancels(cancelTasks[..i])
        invariant failed == old(failed) + BrokenCancels(cancelTasks[..i])
      {
        assert cancelTasks[..i + 1][..i] == cancelTasks[..i];
        match cancelTasks[i].status
        case Running => running := running + [cancelTasks[i]];
        case Ended =>
        case Broken =>
          failures := failures + [ProviderFailure(cancelTasks[i].trigger)];
          failed := failed + [ProviderFailure(cancelTasks[i].trigger)];
      }
      assert cancelTasks[..|cancelTasks|] == cancelTasks;
      cancelTasks := running;
    }

    method CollectDoneActive(order: seq<ConversationId>)
      requires Walks(Value(), order) && PendingKeyed(Value())
      modifies this
      ensures Value() == S.CollectDoneActive(old(Value()), order)
      ensures PendingKeyed(Value())
    {
      var turns := active;
      for i := 0 to |order|
        invariant Value() == S.CollectDoneActive(old(Value()), order[..i])
        invariant PendingKeyed(Value())
        invariant forall k :: i <= k < |order| ==> order[k] in active && active[order[k]] == turns[order[k]]
      {
        assert order[..i + 1][..i] == order[..i];
        var c := order[i];
        if Done(turns[c].task) {
          OthersStayActive(Value(), c);
          CollectCompleted(c, turns[c]);
        }
      }
      assert order[..|order|] == order;
    }

    method DrainCompleted(order: seq<ConversationId>) returns (drained: seq<Completion>)
      requires Walks(Value(), order) && PendingKeyed(Value())
      modifies this
      ensures PendingKeyed(Value())
      ensures Value() == S.DrainCompleted(old(Value()), order)
      ensures drained == CollectAll(old(Value()), order).completed
    {
      CollectDoneRetired();
      CollectDoneCancelTasks();
      CollectDoneActive(order);
      drained := completed;
      completed := [];
    }

    method DrainFailures(order: seq<ConversationId>) returns (drained: seq<Failure>)
      requires Walks(Value(), order) && PendingKeyed(Value())
      modifies this
      ensures PendingKeyed(Value())
      ensures Value() == S.DrainFailures(old(Value()), order)
      ensures drained == CollectAll(old(Value()), order).failures
    {
      CollectDoneRetired();
      CollectDoneCancelTasks();
      CollectDoneActive(order);
      drained := failures;
      failures := [];
    }

    method RestoreCompleted(back: seq<Completion>)
      modifies this`completed
      ensures Value() == S.RestoreCompleted(old(Value()), back)
    {
      completed := back + completed;
    }

    /** The event loop runs tasks and provider cancels while nobody calls the supervisor. */
    method LetRun(moves: seq<Move>)
      modifies `tasks, `cancelTasks
      ensures Value() == Moved(old(Value()), moves)
    {
      for i := 0 to |moves|
        invariant Value() == Moved(old(Value()), moves[..i])
      {
        assert moves[..i + 1][..i] == moves[..i];
        match moves[i]
        case TaskMoves(task, action) =>
          if task < |tasks| {
            tasks := tasks[task := Act(tasks[task], action)];
          }
        case CancelMoves(cancel, status) =>
          if cancel < |cancelTasks| && cancelTasks[cancel].status.Running? {
            cancelTasks := cancelTasks[cancel := cancelTasks[cancel].(status := status)];
          }
      }
      assert moves[..|moves|] == moves;
    }

    method SubmitIfIdle(t: Trigger, parent: Option<nat>) returns (accepted: bool)
      modifies this
      ensures Value() == S.SubmitIfIdle(old(Value()), t, parent)
      ensures accepted <==> IsIdle(BeforeIdleSubmit(old(Value()), t.conversation), t.conversation)
    {
      CollectDoneRetired();
      CollectDoneCancelTasks();
      var c := t.conversation;
      if c in active {
        if !Done(active[c].task) {
          return false;
        }
        CollectCompleted(c, active[c]);
      }
      if c in active || c in pending {
        return false;
      }
      if exists k :: 0 <= k < |completed| && completed[k].sub.trigger.conversation == c {
        return false;
      }
      Submit(t, parent);
      return true;
    }

    method CancelProviderRuns(runIds: seq<Option<RunId>>, trigger: Option<Trigger>)
      modifies this
      ensures Value() == S.CancelProviderRuns(old(Value()), runIds, trigger)
    {
      CollectDoneCancelTasks();
      ghost var before := Value();
      for i := 0 to |runIds|
        invariant Value() == before.(cancels := before.cancels + CancelTasksFor(runIds[..i], trigger))
      {
        assert runIds[..i + 1][..i] == runIds[..i];
        if runIds[i].None? {
          continue;
        }
        cancelTasks := cancelTasks + [CancelTask(trigger, runIds[i].value, Running)];
      }
      assert runIds[..|runIds|] == runIds;
    }
  }
}
