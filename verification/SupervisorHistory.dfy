/**
  What never goes back over a run of the supervisor: submissions keep their number and trigger,
  tasks keep what they did, and the queue of completions only grows.
*/
module SupervisorHistory {
  import opened Options
  import opened TurnTask
  import opened Supervisor
  import opened SupervisorInvariant
  import opened SupervisorRuns

  ghost predicate LedgerGrows(s: State, s': State) {
    && |s.ledger| <= |s'.ledger|
    && (forall n :: 0 <= n < |s.ledger| ==>
      s'.ledger[n].trigger == s.ledger[n].trigger && s'.ledger[n].parent == s.ledger[n].parent)
  }

  /** The supervisor only asks tasks to cancel and creates new ones. */
  ghost predicate TasksKept(s: State, s': State) {
    && |s.tasks| <= |s'.tasks|
    && (forall i :: 0 <= i < |s.tasks| ==>
         && s'.tasks[i] == s.tasks[i].(cancelRequested := s'.tasks[i].cancelRequested)
         && (s.tasks[i].cancelRequested ==> s'.tasks[i].cancelRequested))
    && (forall i :: |s.tasks| <= i < |s'.tasks| ==> s'.tasks[i].log == [] && !s'.tasks[i].closeCommitted)
  }

  ghost predicate Quiet(s: State, s': State) {
    LedgerGrows(s, s') && TasksKept(s, s') && s.collected <= s'.collected
  }

  lemma QuietTrans(s: State, s1: State, s2: State)
    requires Quiet(s, s1) && Quiet(s1, s2)
    ensures Quiet(s, s2)
  {
  }

  lemma CollectTaskResultQuiet(s: State, a: ActiveTurn, publish: bool)
    requires IsDone(s, a.task)
    ensures Quiet(s, CollectTaskResult(s, a, publish))
  {
  }

  lemma StartQuiet(s: State, sub: Submission)
    ensures Quiet(s, StartTrigger(s, sub))
  {
  }

  lemma CollectCompletedQuiet(s: State, c: ConversationId)
    requires c in s.active && IsDone(s, s.active[c].task)
    ensures Quiet(s, CollectCompleted(s, c))
  {
    var s1 := CollectActive(s, c);
    CollectTaskResultQuiet(s.(active := s.active - {c}), s.active[c], true);
    if c in s1.pending {
      StartQuiet(TakePending(s1, c), s1.pending[c]);
    }
  }

  lemma {:induction false} CollectDoneRetiredQuiet(s: State, k: nat)
    ensures Quiet(s, CollectDoneRetired(s, k))
    decreases |s.retired| - k
  {
    if k < |s.retired| {
      if IsDone(s, s.retired[k].turn.task) {
        CollectTaskResultQuiet(s.(retired := s.retired[..k] + s.retired[k + 1..]), s.retired[k].turn,
          s.retired[k].publishCompletion);
        CollectDoneRetiredQuiet(CollectRetired(s, k), k);
        QuietTrans(s, CollectRetired(s, k), CollectDoneRetired(s, k));
      } else {
        CollectDoneRetiredQuiet(s, k + 1);
      }
    }
  }

  lemma {:induction false} CollectDoneActiveQuiet(s: State, order: seq<ConversationId>)
    ensures Quiet(s, CollectDoneActive(s, order))
  {
    if order != [] {
      CollectDoneActiveQuiet(s, order[..|order| - 1]);
      var s' := CollectDoneActive(s, order[..|order| - 1]);
      var c := order[|order| - 1];
      if c in s'.active && IsDone(s', s'.active[c].task) {
        CollectCompletedQuiet(s', c);
        QuietTrans(s, s', CollectCompleted(s', c));
      }
    }
  }

  lemma CollectAllQuiet(s: State, order: seq<ConversationId>)
    ensures Quiet(s, CollectAll(s, order))
  {
    CollectDoneRetiredQuiet(s, 0);
    CollectDoneActiveQuiet(CollectDoneCancels(CollectDoneRetired(s, 0)), order);
    QuietTrans(s, CollectDoneCancels(CollectDoneRetired(s, 0)), CollectAll(s, order));
  }

  lemma SubmitQuiet(s: State, t: Trigger, parent: Option<nat>)
    ensures Quiet(s, Submit(s, t, parent))
  {
    var c := t.conversation;
    var s1 := if c in s.active && IsDone(s, s.active[c].task) then CollectCompleted(s, c) else s;
    if c in s.active && IsDone(s, s.active[c].task) {
      CollectCompletedQuiet(s, c);
    }
    PlaceQuiet(s1, t, parent);
    QuietTrans(s, s1, Submit(s, t, parent));
  }

  lemma PlaceQuiet(s: State, t: Trigger, parent: Option<nat>)
    ensures var sub := Submission(|s.ledger|, WithRunId(t)); var c := t.conversation; var s2 := Arrive(s, t, parent);
            Quiet(s, if c in s2.active then
                       if IsClosed(s2, s2.active[c].task) then Wait(s2, sub)
                          else StartTrigger(Retire(s2, c, sub.id), sub)
                     else StartTrigger(s2, sub))
  {
    var sub := Submission(|s.ledger|, WithRunId(t));
    var c := t.conversation;
    var s2 := Arrive(s, t, parent);
    ArriveQuiet(s, t, parent);
    if c in s2.active {
      if IsClosed(s2, s2.active[c].task) {
        WaitQuiet(s2, sub);
        QuietTrans(s, s2, Wait(s2, sub));
      } else {
        ReplaceQuiet(s2, c, sub);
        QuietTrans(s, s2, StartTrigger(Retire(s2, c, sub.id), sub));
      }
    } else {
      StartQuiet(s2, sub);
      QuietTrans(s, s2, StartTrigger(s2, sub));
    }
  }

  lemma ArriveQuiet(s: State, t: Trigger, parent: Option<nat>)
    ensures Quiet(s, Arrive(s, t, parent))
  {
  }

  lemma ReplaceQuiet(s: State, c: ConversationId, sub: Submission)
    requires c in s.active
    ensures Quiet(s, StartTrigger(Retire(s, c, sub.id), sub))
  {
    RetireQuiet(s, c, sub.id);
    StartQuiet(Retire(s, c, sub.id), sub);
    QuietTrans(s, Retire(s, c, sub.id), StartTrigger(Retire(s, c, sub.id), sub));
  }

  lemma RetireQuiet(s: State, c: ConversationId, newer: nat)
    requires c in s.active
    ensures Quiet(s, Retire(s, c, newer))
  {
  }

  lemma WaitQuiet(s: State, sub: Submission)
    ensures Quiet(s, Wait(s, sub))
  {
  }

  lemma BeforeIdleSubmitQuiet(s: State, c: ConversationId)
    ensures Quiet(s, BeforeIdleSubmit(s, c))
  {
    CollectDoneRetiredQuiet(s, 0);
    var s1 := CollectDoneCancels(CollectDoneRetired(s, 0));
    if c in s1.active && IsDone(s1, s1.active[c].task) {
      CollectCompletedQuiet(s1, c);
      QuietTrans(s, s1, CollectCompleted(s1, c));
    }
  }

  lemma RetryQuiet(s: State, f: Failure)
    ensures Quiet(s, Retry(s, f))
  {
    var t := RetryTrigger(f);
    if t.Some? {
      BeforeIdleSubmitQuiet(s, t.value.conversation);
      var s1 := BeforeIdleSubmit(s, t.value.conversation);
      SubmitQuiet(s1, t.value, Some(f.sub.id));
      QuietTrans(s, s1, Submit(s1, t.value, Some(f.sub.id)));
    }
  }

  lemma NewTriggerQuiet(w: World, t: Trigger)
    ensures Quiet(w.sup, Next(w, NewTrigger(t)).sup)
  {
    if w.phase.Idle? {
      SubmitQuiet(w.sup, t, None);
    }
  }

  lemma BeginDrainQuiet(w: World, order: seq<ConversationId>)
    ensures Quiet(w.sup, Next(w, BeginDrain(order)).sup)
  {
    if w.phase.Idle? {
      CollectAllQuiet(w.sup, order);
    }
  }

  lemma TakeFailuresQuiet(w: World, order: seq<ConversationId>)
    ensures Quiet(w.sup, Next(w, TakeFailures(order)).sup)
  {
    if w.phase.Drained? {
      CollectAllQuiet(w.sup, order);
    }
  }

  lemma RetryNextQuiet(w: World)
    ensures Quiet(w.sup, Next(w, RetryNext).sup)
  {
    if w.phase.Retrying? && w.failing != [] {
      RetryQuiet(w.sup, w.failing[0]);
    }
  }

  lemma OtherStepQuiet(w: World, step: Step)
    requires step.CancelRuns? || step.CancelStep? || step.BeginPublish? || step.PublishNext? || step.PublishFails?
             || step.DrainEnds?
    ensures Quiet(w.sup, Next(w, step).sup)
  {
  }

  /** Every step but a task's own is quiet. */
  lemma NextQuiet(w: World, step: Step)
    requires !step.TaskStep?
    ensures Quiet(w.sup, Next(w, step).sup)
  {
    match step
    case NewTrigger(t) => NewTriggerQuiet(w, t);
    case BeginDrain(order) => BeginDrainQuiet(w, order);
    case TakeFailures(order) => TakeFailuresQuiet(w, order);
    case RetryNext => RetryNextQuiet(w);
    case CancelRuns(_, _) => OtherStepQuiet(w, step);
    case CancelStep(_, _) => OtherStepQuiet(w, step);
    case BeginPublish => OtherStepQuiet(w, step);
    case PublishNext => OtherStepQuiet(w, step);
    case PublishFails => OtherStepQuiet(w, step);
    case DrainEnds => OtherStepQuiet(w, step);
  }

  /** What a step, the task's own included, never takes back. */
  ghost predicate Kept(s: State, s': State) {
    && LedgerGrows(s, s') && |s.tasks| <= |s'.tasks| && s.collected <= s'.collected
    && (forall i :: 0 <= i < |s.tasks| ==>
      s'.tasks[i].sub == s.tasks[i].sub && (s.tasks[i].closeCommitted ==> s'.tasks[i].closeCommitted))
  }

  lemma {:induction false} RunKept(steps: seq<Step>, more: seq<Step>)
    ensures Kept(Run(steps).sup, Run(steps + more).sup)
  {
    if more == [] {
      assert steps + more == steps;
    } else {
      var before, step := more[..|more| - 1], more[|more| - 1];
      RunKept(steps, before);
      assert (steps + more)[..|steps + more| - 1] == steps + before;
      if step.TaskStep? {
        if step.task < |Run(steps + before).sup.tasks| {
          ActsKept(Run(steps + before).sup, step.task, step.action);
        }
      } else {
        NextQuiet(Run(steps + before), step);
      }
    }
  }

  lemma ActsKept(s: State, i: nat, a: Action)
    requires i < |s.tasks|
    ensures Kept(s, TaskActs(s, i, a))
  {
  }
}
