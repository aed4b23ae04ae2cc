/**
  What the supervisor asks of the agent's provider: which run is cancelled, when, and for whom.
  Everything here is said of the containers themselves.
*/
module SupervisorCancels {
  import opened Options
  import opened TurnTask
  import opened Supervisor
  import opened SupervisorInvariant
  import opened SupervisorResults
  import opened SupervisorMethods
  import opened SupervisorRuns
  import opened SupervisorHistory

  /** A submission runs under its trigger's own run id, or under its trigger id if it has none. */
  lemma RunIdGiven(t: Trigger)
    ensures WithRunId(t) == Trigger(t.triggerId, t.conversation, t.mode,
                              Some(if t.agentRunId.Some? then t.agentRunId.value else t.triggerId), t.retryCount)
  {
  }

  // -------------------------------------------------------------- one call of submit

  /** No active turn: the trigger starts. */
  lemma SubmitStarts(s: State, t: Trigger, parent: Option<nat>)
    requires t.conversation !in s.active
    ensures var s' := Submit(s, t, parent); var n := |s.ledger|; var given := WithRunId(t);
            && s'.active == s.active[t.conversation :=
                 ActiveTurn(Submission(n, given), |s.tasks|, given.agentRunId.value)]
            && s'.tasks == s.tasks + [NewTask(n)]
            && s'.pending == s.pending && s'.retired == s.retired && s'.cancels == s.cancels
            && s'.completed == s.completed && s'.failures == s.failures
            && |s'.ledger| == n + 1 && s'.ledger[n] == Entry(given, parent, None, Active(|s.tasks|))
  {
  }

  /** An active turn that runs on after its close: the trigger waits, and whatever waited is gone. */
  lemma SubmitWaits(s: State, t: Trigger, parent: Option<nat>)
    requires t.conversation in s.active && s.active[t.conversation].task < |s.tasks|
    requires var task := s.tasks[s.active[t.conversation].task]; task.outcome.None? && task.closeCommitted
    ensures var s' := Submit(s, t, parent); var n := |s.ledger|; var given := WithRunId(t);
            && s'.pending == s.pending[t.conversation := Submission(n, given)]
            && s'.active == s.active && s'.tasks == s.tasks && s'.retired == s.retired && s'.cancels == s.cancels
            && s'.completed == s.completed && s'.failures == s.failures
            && |s'.ledger| == n + 1 && s'.ledger[n] == Entry(given, parent, None, Waiting)
  {
  }

  /** An active turn that has neither ended nor committed its close: it is asked to cancel, retired
      without publishing, and the provider is asked to cancel its run; the trigger starts. */
  lemma SubmitSupersedes(s: State, t: Trigger, parent: Option<nat>)
    requires t.conversation in s.active && s.active[t.conversation].task < |s.tasks|
    requires var task := s.tasks[s.active[t.conversation].task]; task.outcome.None? && !task.closeCommitted
    ensures var s' := Submit(s, t, parent); var n := |s.ledger|; var given := WithRunId(t);
            var a := s.active[t.conversation];
            && s'.active == s.active[t.conversation :=
                 ActiveTurn(Submission(n, given), |s.tasks|, given.agentRunId.value)]
            && s'.tasks == s.tasks[a.task := s.tasks[a.task].(cancelRequested := true)] + [NewTask(n)]
            && s'.retired == s.retired + [RetiredTurn(a, false)]
            && s'.cancels == s.cancels + [CancelTask(Some(a.sub.trigger), a.runId, Running)]
            && s'.pending == s.pending && s'.completed == s.completed && s'.failures == s.failures
            && |s'.ledger| == n + 1
  {
  }

  lemma SupersedingEntry(s: State, t: Trigger, parent: Option<nat>)
    requires t.conversation in s.active && s.active[t.conversation].task < |s.tasks|
    requires var task := s.tasks[s.active[t.conversation].task]; task.outcome.None? && !task.closeCommitted
    requires s.active[t.conversation].sub.id < |s.ledger|
    ensures var s' := Submit(s, t, parent); var n := |s.ledger|; var a := s.active[t.conversation];
            && |s'.ledger| == n + 1 && s'.ledger[n] == Entry(WithRunId(t), parent, None, Active(|s.tasks|))
            && s'.ledger[a.sub.id].fate == Fate.Retired(a.task, n)
  {
  }

  /** An active turn that has ended: its result is taken, what waited behind it starts, and the
      trigger then meets whatever is active. */
  lemma SubmitCollects(s: State, t: Trigger, parent: Option<nat>)
    requires t.conversation in s.active && s.active[t.conversation].task < |s.tasks|
    requires s.tasks[s.active[t.conversation].task].outcome.Some? && PendingKeyed(s)
    ensures Submit(s, t, parent) == Submit(CollectCompleted(s, t.conversation), t, parent)
  {
    CollectedFields(s, t.conversation);
  }

  lemma CollectedFields(s: State, c: ConversationId)
    requires c in s.active && s.active[c].task < |s.tasks| && s.tasks[s.active[c].task].outcome.Some? && PendingKeyed(s)
    ensures var s' := CollectCompleted(s, c);
            && s'.pending == s.pending - {c} && s'.retired == s.retired && s'.cancels == s.cancels
            && |s'.ledger| == |s.ledger|
            && s'.tasks == s.tasks + (if c in s.pending then [NewTask(s.pending[c].id)] else [])
            && (c !in s.pending ==> s'.active == s.active - {c})
            && (c in s.pending ==>
                  var given := WithRunId(s.pending[c].trigger);
                  s'.active == s.active[c := ActiveTurn(Submission(s.pending[c].id, given), |s.tasks|,
                                                        given.agentRunId.value)])
  {
    var s1 := CollectActive(s, c);
    assert s1.pending == s.pending && s1.active == s.active - {c} && s1.tasks == s.tasks && s1.retired == s.retired;
    if c in s.pending {
      var started := StartPendingIfAny(s1, c);
      assert started.tasks == s.tasks + [NewTask(s.pending[c].id)];
      var given := WithRunId(s.pending[c].trigger);
      assert started.active == s1.active[c := ActiveTurn(Submission(s.pending[c].id, given), |s.tasks|,
                                                         given.agentRunId.value)];
    } else {
      assert s.pending - {c} == s.pending;
    }
  }

  /** The result that a done active turn leaves, in the queue it belongs to. */
  lemma CollectedResult(s: State, c: ConversationId)
    requires c in s.active && s.active[c].task < |s.tasks| && s.tasks[s.active[c].task].outcome.Some?
    ensures var s' := CollectCompleted(s, c); var a := s.active[c]; var o := s.tasks[a.task].outcome.value;
            && s'.completed == s.completed + (if o.Value? then [Completion(a.sub, o.result)] else [])
            && s'.failures == s.failures + (if o.Failed? then [TurnFailure(a.sub)] else [])
  {
  }

  /** The cancels that a submit adds: none; or one for the turn it supersedes; or, when the active
      turn is done, one for the turn that waited behind it, starts, and is superseded at once. */
  lemma SubmitCancels(s: State, t: Trigger, parent: Option<nat>)
    requires PendingKeyed(s)
    requires t.conversation in s.active ==> s.active[t.conversation].task < |s.tasks|
    ensures var c := t.conversation;
            Submit(s, t, parent).cancels == s.cancels +
              if c !in s.active then []
              else
                var a := s.active[c];
                if s.tasks[a.task].outcome.None? then
                  if s.tasks[a.task].closeCommitted then [] else [CancelTask(Some(a.sub.trigger), a.runId, Running)]
                else if c !in s.pending then []
                else
                  var given := WithRunId(s.pending[c].trigger);
                  [CancelTask(Some(given), given.agentRunId.value, Running)]
  {
    var c := t.conversation;
    if c !in s.active {
      SubmitStarts(s, t, parent);
    } else if s.tasks[s.active[c].task].outcome.Some? {
      DoneCancels(s, t, parent);
    } else if s.tasks[s.active[c].task].closeCommitted {
      SubmitWaits(s, t, parent);
    } else {
      SubmitSupersedes(s, t, parent);
    }
  }

  lemma DoneCancels(s: State, t: Trigger, parent: Option<nat>)
    requires t.conversation in s.active && s.active[t.conversation].task < |s.tasks| && PendingKeyed(s)
    requires s.tasks[s.active[t.conversation].task].outcome.Some?
    ensures var c := t.conversation;
            Submit(s, t, parent).cancels ==
            s.cancels +
              if c !in s.pending then []
              else
                var given := WithRunId(s.pending[c].trigger);
                [CancelTask(Some(given), given.agentRunId.value, Running)]
  {
    var c := t.conversation;
    SubmitCollects(s, t, parent);
    CollectedFields(s, c);
    if c in s.pending {
      SubmitSupersedes(CollectCompleted(s, c), t, parent);
    } else {
      SubmitStarts(CollectCompleted(s, c), t, parent);
    }
  }

  // ---------------------------------------------------------- what asks nobody to cancel

  /** Active turns and submissions know their run ids. */
  ghost predicate RunIdsTrue(s: State) {
    && (forall c :: c in s.active ==> s.active[c].sub.trigger.agentRunId == Some(s.active[c].runId))
    && (forall n :: 0 <= n < |s.ledger| ==> s.ledger[n].trigger.agentRunId.Some?)
  }

  /** From `s` to `s'` no task was asked to cancel. */
  ghost predicate Spares(s: State, s': State) {
    && |s.tasks| <= |s'.tasks|
    && (forall i :: 0 <= i < |s.tasks| ==>
         s'.tasks[i].sub == s.tasks[i].sub && s'.tasks[i].cancelRequested == s.tasks[i].cancelRequested)
    && (forall i :: |s.tasks| <= i < |s'.tasks| ==> !s'.tasks[i].cancelRequested)
    && (RunIdsTrue(s) ==> RunIdsTrue(s'))
  }

  lemma SparesTrans(s: State, s1: State, s2: State)
    requires Spares(s, s1) && Spares(s1, s2)
    ensures Spares(s, s2)
  {
  }

  /** A turn leaves its container and its result is taken. */
  lemma CollectSpares(s: State, s0: State, a: ActiveTurn, publish: bool)
    requires s0.tasks == s.tasks && s0.ledger == s.ledger && s0.active.Keys <= s.active.Keys
    requires forall c :: c in s0.active ==> s0.active[c] == s.active[c]
    requires IsDone(s0, a.task)
    ensures Spares(s, CollectTaskResult(s0, a, publish))
    ensures CollectTaskResult(s0, a, publish).cancels == s0.cancels
  {
  }

  lemma StartSpares(s: State, sub: Submission)
    ensures Spares(s, StartTrigger(s, sub)) && StartTrigger(s, sub).cancels == s.cancels
  {
  }

  lemma TakePendingSpares(s: State, c: ConversationId)
    requires c in s.pending
    ensures Spares(s, TakePending(s, c)) && TakePending(s, c).cancels == s.cancels
  {
  }

  lemma CollectCompletedSpares(s: State, c: ConversationId)
    requires c in s.active && IsDone(s, s.active[c].task)
    ensures Spares(s, CollectCompleted(s, c)) && CollectCompleted(s, c).cancels == s.cancels
  {
    var s1 := CollectActive(s, c);
    CollectSpares(s, s.(active := s.active - {c}), s.active[c], true);
    if c in s1.pending {
      TakePendingSpares(s1, c);
      var s2 := TakePending(s1, c);
      StartSpares(s2, s1.pending[c]);
      SparesTrans(s, s1, s2);
      SparesTrans(s, s2, StartTrigger(s2, s1.pending[c]));
    }
  }

  lemma {:induction false} RetiredSpares(s: State, k: nat)
    ensures Spares(s, CollectDoneRetired(s, k)) && CollectDoneRetired(s, k).cancels == s.cancels
    decreases |s.retired| - k
  {
    if k < |s.retired| {
      if IsDone(s, s.retired[k].turn.task) {
        CollectSpares(s, s.(retired := s.retired[..k] + s.retired[k + 1..]), s.retired[k].turn,
          s.retired[k].publishCompletion);
        var s1 := CollectRetired(s, k);
        RetiredSpares(s1, k);
        SparesTrans(s, s1, CollectDoneRetired(s1, k));
      } else {
        RetiredSpares(s, k + 1);
      }
    }
  }

  lemma {:induction false} ActiveSpares(s: State, order: seq<ConversationId>)
    ensures Spares(s, CollectDoneActive(s, order)) && CollectDoneActive(s, order).cancels == s.cancels
  {
    if order != [] {
      ActiveSpares(s, order[..|order| - 1]);
      var s1 := CollectDoneActive(s, order[..|order| - 1]);
      var c := order[|order| - 1];
      if c in s1.active && IsDone(s1, s1.active[c].task) {
        CollectCompletedSpares(s1, c);
        SparesTrans(s, s1, CollectCompleted(s1, c));
      }
    }
  }

  /** A drain drops the provider cancels that have ended, and asks for none. */
  lemma DrainSpares(s: State, order: seq<ConversationId>)
    ensures Spares(s, CollectAll(s, order)) && CollectAll(s, order).cancels == StillRunning(s.cancels)
  {
    RetiredSpares(s, 0);
    var s1 := CollectDoneRetired(s, 0);
    var s2 := CollectDoneCancels(s1);
    ActiveSpares(s2, order);
    SparesTrans(s, s1, s2);
    SparesTrans(s, s2, CollectAll(s, order));
  }

  lemma BeforeIdleSpares(s: State, c: ConversationId)
    ensures Spares(s, BeforeIdleSubmit(s, c)) && BeforeIdleSubmit(s, c).cancels == StillRunning(s.cancels)
  {
    RetiredSpares(s, 0);
    var s1 := CollectDoneRetired(s, 0);
    var s2 := CollectDoneCancels(s1);
    SparesTrans(s, s1, s2);
    if c in s2.active && IsDone(s2, s2.active[c].task) {
      CollectCompletedSpares(s2, c);
      SparesTrans(s, s2, CollectCompleted(s2, c));
    }
  }

  lemma ArriveSpares(s: State, t: Trigger, parent: Option<nat>)
    ensures Spares(s, Arrive(s, t, parent)) && Arrive(s, t, parent).cancels == s.cancels
  {
  }

  lemma StartsSpares(s: State, t: Trigger, parent: Option<nat>)
    requires t.conversation !in s.active
    ensures Spares(s, Submit(s, t, parent)) && Submit(s, t, parent).cancels == s.cancels
  {
    var s1 := Arrive(s, t, parent);
    ArriveSpares(s, t, parent);
    StartSpares(s1, Submission(|s.ledger|, WithRunId(t)));
    SparesTrans(s, s1, Submit(s, t, parent));
  }

  lemma WaitSpares(s: State, sub: Submission)
    ensures Spares(s, Wait(s, sub))
  {
  }

  lemma WaitsSpares(s: State, t: Trigger, parent: Option<nat>)
    requires t.conversation in s.active && s.active[t.conversation].task < |s.tasks|
    requires var task := s.tasks[s.active[t.conversation].task]; task.outcome.None? && task.closeCommitted
    ensures Spares(s, Submit(s, t, parent))
  {
    ArriveSpares(s, t, parent);
    var s1 := Arrive(s, t, parent);
    var sub := Submission(|s.ledger|, WithRunId(t));
    WaitSpares(s1, sub);
    SparesTrans(s, s1, Wait(s1, sub));
  }

  /** A retry never asks anyone to cancel. */
  lemma RetrySpares(s: State, f: Failure)
    ensures Spares(s, Retry(s, f))
    ensures Retry(s, f).cancels == s.cancels || Retry(s, f).cancels == StillRunning(s.cancels)
  {
    var t := RetryTrigger(f);
    if t.Some? {
      BeforeIdleSpares(s, t.value.conversation);
      var s1 := BeforeIdleSubmit(s, t.value.conversation);
      if IsIdle(s1, t.value.conversation) {
        StartsSpares(s1, t.value, Some(f.sub.id));
        SparesTrans(s, s1, Submit(s1, t.value, Some(f.sub.id)));
      }
    }
  }

  lemma ActSpares(s: State, i: nat, a: Action)
    requires i < |s.tasks|
    ensures Spares(s, TaskActs(s, i, a)) && TaskActs(s, i, a).cancels == s.cancels
  {
  }

  lemma BeginDrainSpares(w: World, order: seq<ConversationId>)
    ensures Spares(w.sup, Next(w, BeginDrain(order)).sup)
  {
    DrainSpares(w.sup, order);
  }

  lemma TakeFailuresSpares(w: World, order: seq<ConversationId>)
    ensures Spares(w.sup, Next(w, TakeFailures(order)).sup)
  {
    DrainSpares(w.sup, order);
  }

  lemma RetryNextSpares(w: World)
    ensures Spares(w.sup, Next(w, RetryNext).sup)
  {
    if w.failing != [] {
      RetrySpares(w.sup, w.failing[0]);
    }
  }

  lemma OtherStepSpares(w: World, step: Step)
    requires step.CancelRuns? || step.CancelStep? || step.BeginPublish? || step.PublishNext? || step.PublishFails?
             || step.DrainEnds?
    ensures Spares(w.sup, Next(w, step).sup)
  {
  }

  /** Whatever happens but a new trigger, no task is asked to cancel. */
  lemma NextSpares(w: World, step: Step)
    requires !step.NewTrigger?
    ensures Spares(w.sup, Next(w, step).sup)
  {
    match step
    case BeginDrain(order) => BeginDrainSpares(w, order);
    case TakeFailures(order) => TakeFailuresSpares(w, order);
    case RetryNext => RetryNextSpares(w);
    case TaskStep(i, a) => if i < |w.sup.tasks| { ActSpares(w.sup, i, a); }
    case CancelRuns(_, _) => OtherStepSpares(w, step);
    case CancelStep(_, _) => OtherStepSpares(w, step);
    case BeginPublish => OtherStepSpares(w, step);
    case PublishNext => OtherStepSpares(w, step);
    case PublishFails => OtherStepSpares(w, step);
    case DrainEnds => OtherStepSpares(w, step);
  }

  // ------------------------------------------------------------------- over whole runs

  /** The cancels asked for because a turn was superseded: those that the triggers' arrivals added. */
  function Asked(steps: seq<Step>): seq<CancelTask> {
    if steps == [] then []
    else
      var before := steps[..|steps| - 1];
      var cs, cs' := Run(before).sup.cancels, Run(steps).sup.cancels;
      if steps[|steps| - 1].NewTrigger? && |cs| <= |cs'| then Asked(before) + cs'[|cs|..] else Asked(before)
  }

  /** Submission `n` was superseded: its task was asked to cancel. */
  predicate Superseded(s: State, n: nat) {
    exists i :: 0 <= i < |s.tasks| && s.tasks[i].sub == n && s.tasks[i].cancelRequested
  }

  /** `cancels` ask for the runs of the submissions `whom`, one each. */
  predicate AskFor(s: State, cancels: seq<CancelTask>, whom: seq<nat>) {
    && |cancels| == |whom|
    && (forall k :: 0 <= k < |whom| ==> whom[k] < |s.ledger| && s.ledger[whom[k]].trigger.agentRunId.Some?)
    && (forall k :: 0 <= k < |whom| ==>
         var t := s.ledger[whom[k]].trigger;
         cancels[k] == CancelTask(Some(t), t.agentRunId.value, Running))
    && (forall j, k :: 0 <= j < k < |whom| ==> whom[j] != whom[k])
  }

  /** `whom` are the superseded submissions, `cancels` the cancels asked for them. */
  ghost predicate AskedExactly(s: State, cancels: seq<CancelTask>, whom: seq<nat>) {
    && RunIdsTrue(s) && AskFor(s, cancels, whom)
    && (forall n: nat :: n in whom <==> Superseded(s, n))
  }

  lemma SparesAsked(s: State, s': State, cancels: seq<CancelTask>, whom: seq<nat>)
    requires AskedExactly(s, cancels, whom) && Spares(s, s') && LedgerGrows(s, s')
    ensures AskedExactly(s', cancels, whom)
  {
    forall n: nat ensures Superseded(s', n) <==> Superseded(s, n) {
      SparesSuperseded(s, s', n);
    }
  }

  lemma SparesSuperseded(s: State, s': State, n: nat)
    requires Spares(s, s')
    ensures Superseded(s', n) <==> Superseded(s, n)
  {
    if Superseded(s, n) {
      var i :| 0 <= i < |s.tasks| && s.tasks[i].sub == n && s.tasks[i].cancelRequested;
      assert s'.tasks[i].sub == n && s'.tasks[i].cancelRequested;
    }
    if Superseded(s', n) {
      var i :| 0 <= i < |s'.tasks| && s'.tasks[i].sub == n && s'.tasks[i].cancelRequested;
      assert i < |s.tasks| && s.tasks[i].sub == n && s.tasks[i].cancelRequested;
    }
  }

  /** The turn that a new trigger supersedes. */
  predicate Supersedes(s: State, c: ConversationId) {
    c in s.active && s.active[c].task < |s.tasks|
    && s.tasks[s.active[c].task].outcome.None? && !s.tasks[s.active[c].task].closeCommitted
  }

  lemma SupersededIsNew(s: State, t: Trigger, parent: Option<nat>, n: nat)
    requires Supersedes(s, t.conversation)
    requires s.tasks[s.active[t.conversation].task].sub == s.active[t.conversation].sub.id
    ensures Superseded(Submit(s, t, parent), n) <==> Superseded(s, n) || n == s.active[t.conversation].sub.id
  {
    SubmitSupersedes(s, t, parent);
    var s' := Submit(s, t, parent);
    var i0 := s.active[t.conversation].task;
    assert s'.tasks[i0].sub == s.active[t.conversation].sub.id && s'.tasks[i0].cancelRequested;
    if Superseded(s, n) {
      var i :| 0 <= i < |s.tasks| && s.tasks[i].sub == n && s.tasks[i].cancelRequested;
      assert s'.tasks[i].sub == n && s'.tasks[i].cancelRequested;
    }
    if Superseded(s', n) {
      var i :| 0 <= i < |s'.tasks| && s'.tasks[i].sub == n && s'.tasks[i].cancelRequested;
      assert i != i0 ==> s.tasks[i].sub == n && s.tasks[i].cancelRequested;
    }
  }

  lemma SupersedingRunIds(s: State, t: Trigger, parent: Option<nat>)
    requires Supersedes(s, t.conversation) && RunIdsTrue(s)
    ensures RunIdsTrue(Submit(s, t, parent))
  {
    SubmitSupersedes(s, t, parent);
    SubmitQuiet(s, t, parent);
  }

  /** The turn just superseded had not been before. */
  lemma ActiveNotSuperseded(s: State, c: ConversationId)
    requires Places(s, None) && c in s.active
    ensures !Superseded(s, s.active[c].sub.id)
  {
  }

  lemma OneMoreAsked(s: State, s': State, cancels: seq<CancelTask>, whom: seq<nat>, a: ActiveTurn)
    requires AskFor(s, cancels, whom) && LedgerGrows(s, s') && a.sub.id !in whom
    requires a.sub.id < |s.ledger| && s.ledger[a.sub.id].trigger == a.sub.trigger
             && a.sub.trigger.agentRunId == Some(a.runId)
    ensures AskFor(s', cancels + [CancelTask(Some(a.sub.trigger), a.runId, Running)], whom + [a.sub.id])
  {
  }

  lemma SupersedingAsks(s: State, t: Trigger, parent: Option<nat>, cancels: seq<CancelTask>, whom: seq<nat>)
    requires Places(s, None) && Supersedes(s, t.conversation) && AskedExactly(s, cancels, whom)
    ensures var a := s.active[t.conversation];
            AskedExactly(Submit(s, t, parent), cancels + [CancelTask(Some(a.sub.trigger), a.runId, Running)],
              whom + [a.sub.id])
  {
    var s' := Submit(s, t, parent);
    var a := s.active[t.conversation];
    SupersedingRunIds(s, t, parent);
    SubmitQuiet(s, t, parent);
    ActiveNotSuperseded(s, t.conversation);
    OneMoreAsked(s, s', cancels, whom, a);
    forall n: nat ensures n in whom + [a.sub.id] <==> Superseded(s', n) {
      SupersededIsNew(s, t, parent, n);
      assert n in whom <==> Superseded(s, n);
    }
  }

  /** A new trigger meets a turn that is not done, or none. */
  lemma UndoneArrival(s: State, t: Trigger, cancels: seq<CancelTask>, whom: seq<nat>) returns (whom': seq<nat>)
    requires Places(s, None) && AskedExactly(s, cancels, whom)
    requires t.conversation in s.active ==> s.tasks[s.active[t.conversation].task].outcome.None?
    ensures var s' := Submit(s, t, None);
            s.cancels <= s'.cancels && AskedExactly(s', cancels + s'.cancels[|s.cancels|..], whom')
  {
    var c, s' := t.conversation, Submit(s, t, None);
    whom' := whom;
    SubmitQuiet(s, t, None);
    if c !in s.active {
      StartsSpares(s, t, None);
      SparesAsked(s, s', cancels, whom);
    } else if s.tasks[s.active[c].task].closeCommitted {
      WaitsSpares(s, t, None);
      SubmitWaits(s, t, None);
      SparesAsked(s, s', cancels, whom);
    } else {
      SubmitSupersedes(s, t, None);
      SupersedingAsks(s, t, None, cancels, whom);
      whom' := whom + [s.active[c].sub.id];
      assert s'.cancels[|s.cancels|..] == [CancelTask(Some(s.active[c].sub.trigger), s.active[c].runId, Running)];
      return;
    }
    assert cancels + s'.cancels[|s.cancels|..] == cancels;
  }

  lemma Arrival(s: State, t: Trigger, cancels: seq<CancelTask>, whom: seq<nat>, ahead: seq<Completion>)
    returns (whom': seq<nat>)
    requires Good(s, None, None, [], ahead) && AskedExactly(s, cancels, whom)
    ensures var s' := Submit(s, t, None);
            s.cancels <= s'.cancels && AskedExactly(s', cancels + s'.cancels[|s.cancels|..], whom')
  {
    var c := t.conversation;
    if c in s.active && IsDone(s, s.active[c].task) {
      var s1 := CollectCompleted(s, c);
      CollectCompletedGood(s, c, [], ahead);
      CollectCompletedSpares(s, c);
      CollectCompletedQuiet(s, c);
      SparesAsked(s, s1, cancels, whom);
      CollectedFields(s, c);
      SubmitCollects(s, t, None);
      whom' := UndoneArrival(s1, t, cancels, whom);
    } else {
      whom' := UndoneArrival(s, t, cancels, whom);
    }
  }

  lemma NextLedgerGrows(w: World, step: Step)
    ensures LedgerGrows(w.sup, Next(w, step).sup)
  {
    if !step.TaskStep? {
      NextQuiet(w, step);
    }
  }

  /** Over any run there is exactly one cancel for each superseded submission, under that
      submission's own run id, and none for any other. */
  lemma {:induction false} EachSupersededIsAsked(steps: seq<Step>) returns (whom: seq<nat>)
    ensures AskFor(Run(steps).sup, Asked(steps), whom)
    ensures forall n: nat :: n in whom <==> Superseded(Run(steps).sup, n)
    ensures RunIdsTrue(Run(steps).sup)
  {
    whom := [];
    if steps != [] {
      var before, step := steps[..|steps| - 1], steps[|steps| - 1];
      var w := Run(before);
      var earlier := EachSupersededIsAsked(before);
      RunKeeps(before);
      whom := OneMoreStep(w, step, Asked(before), earlier);
    }
  }

  lemma OneMoreStep(w: World, step: Step, cancels: seq<CancelTask>, whom: seq<nat>) returns (whom': seq<nat>)
    requires WorldOk(w) && AskedExactly(w.sup, cancels, whom)
    ensures var cs, cs' := w.sup.cancels, Next(w, step).sup.cancels;
            AskedExactly(Next(w, step).sup,
              if step.NewTrigger? && |cs| <= |cs'| then cancels + cs'[|cs|..] else cancels, whom')
  {
    whom' := whom;
    if step.NewTrigger? {
      if w.phase.Idle? {
        whom' := Arrival(w.sup, step.trigger, cancels, whom, w.published + w.inflight);
      } else {
        assert cancels + w.sup.cancels[|w.sup.cancels|..] == cancels;
      }
    } else {
      NextSpares(w, step);
      NextLedgerGrows(w, step);
      SparesAsked(w.sup, Next(w, step).sup, cancels, whom);
    }
  }

  /** Superseded is what the ledger says too. */
  lemma SupersededIff(steps: seq<Step>, n: nat)
    requires n < |Run(steps).sup.ledger|
    ensures var f := Run(steps).sup.ledger[n].fate;
            Superseded(Run(steps).sup, n) <==> f.Retired? || (f.Collected? && f.superseded.Some?)
  {
    RunKeeps(steps);
    var s := Run(steps).sup;
    assert FateTrue(s, n);
    if s.ledger[n].fate.Retired? {
      assert InRetired(s, n);
      var k :| 0 <= k < |s.retired| && s.retired[k].turn.sub.id == n;
      assert s.tasks[s.retired[k].turn.task].sub == n;
    }
  }

  /** In every reachable state, a trigger that arrives has the provider cancel exactly the run of
      the turn it supersedes, under that turn's own run id; when nothing is superseded, none. */
  lemma ArrivalCancels(steps: seq<Step>, t: Trigger)
    ensures var s := Run(steps).sup; var c := t.conversation;
            && (c in s.active ==> s.active[c].task < |s.tasks| && s.active[c].sub.id < |s.ledger|)
            && (c in s.pending ==> s.pending[c].id < |s.ledger|)
            && (forall n :: 0 <= n < |s.ledger| ==> s.ledger[n].trigger.agentRunId.Some?)
    ensures var s := Run(steps).sup; var s' := Submit(s, t, None); var c := t.conversation;
            s'.cancels == s.cancels +
              if c !in s.active then []
              else
                var n := s.active[c].sub.id;
                var task := s.tasks[s.active[c].task];
                if task.outcome.None? then
                  if task.closeCommitted then []
                  else [CancelTask(Some(s.ledger[n].trigger), s.ledger[n].trigger.agentRunId.value, Running)]
                else if c !in s.pending then []
                else
                  var waiting := s.ledger[s.pending[c].id].trigger;
                  [CancelTask(Some(waiting), waiting.agentRunId.value, Running)]
  {
    RunKeeps(steps);
    var s := Run(steps).sup;
    var whom := EachSupersededIsAsked(steps);
    SubmitCancels(s, t, None);
  }

  // --------------------------------------------------------------- cancels that have ended

  /** Of the provider cancels looked at, those that run stay, in order, and those that broke are
      failures, in order; those that ended well are dropped. */
  lemma {:induction false} EndedCancels(a: seq<CancelTask>, b: seq<CancelTask>)
    ensures StillRunning(a + b) == StillRunning(a) + StillRunning(b)
    ensures BrokenCancels(a + b) == BrokenCancels(a) + BrokenCancels(b)
  {
    if b == [] {
      assert a + b == a;
    } else {
      EndedCancels(a, b[..|b| - 1]);
      assert (a + b)[..|a + b| - 1] == a + b[..|b| - 1];
    }
  }

  lemma OneEndedCancel(c: CancelTask)
    ensures StillRunning([c]) == if c.status == Running then [c] else []
    ensures BrokenCancels([c]) == if c.status == Broken then [ProviderFailure(c.trigger)] else []
  {
    assert [c][..0] == [];
  }

  /** `cancel_provider_runs` asks once for each run id that is one, in order. */
  lemma {:induction false} CancelsRequested(a: seq<Option<RunId>>, b: seq<Option<RunId>>, t: Option<Trigger>)
    ensures CancelTasksFor(a + b, t) == CancelTasksFor(a, t) + CancelTasksFor(b, t)
  {
    if b == [] {
      assert a + b == a;
    } else {
      CancelsRequested(a, b[..|b| - 1], t);
      assert (a + b)[..|a + b| - 1] == a + b[..|b| - 1];
    }
  }

  lemma OneCancelRequested(r: Option<RunId>, t: Option<Trigger>)
    ensures CancelTasksFor([r], t) == if r == None then [] else [CancelTask(t, r.value, Running)]
  {
    assert [r][..0] == [];
  }

  /** Apart from arrivals only an explicit request adds cancels, and only drains and retries drop
      any: those that have ended. */
  lemma NothingElseAsks(w: World, step: Step)
    requires !step.NewTrigger?
    ensures var cs, cs' := w.sup.cancels, Next(w, step).sup.cancels;
            match step
            case CancelRuns(runIds, t) =>
              cs' == if w.phase.Idle? then StillRunning(cs) + CancelTasksFor(runIds, t) else cs
            case BeginDrain(_) => cs' == if w.phase.Idle? then StillRunning(cs) else cs
            case TakeFailures(_) => cs' == if w.phase.Drained? then StillRunning(cs) else cs
            case RetryNext => cs' == cs || cs' == StillRunning(cs)
            case CancelStep(k, status) =>
              |cs'| == |cs| && forall j :: 0 <= j < |cs| ==>
                cs'[j] == if j == k && cs[j].status == Running then cs[j].(status := status) else cs[j]
            case _ => cs' == cs
  {
    match step
    case BeginDrain(order) => DrainSpares(w.sup, order);
    case TakeFailures(order) => DrainSpares(w.sup, order);
    case RetryNext => if w.failing != [] { RetrySpares(w.sup, w.failing[0]); }
    case TaskStep(_, _) =>
    case CancelRuns(_, _) =>
    case CancelStep(_, _) =>
    case BeginPublish =>
    case PublishNext =>
    case PublishFails =>
    case DrainEnds =>
  }

  ghost predicate TurnFailures(q: seq<Failure>) { forall k :: 0 <= k < |q| ==> q[k].TurnFailure? }

  lemma {:induction false} RetiredFail(s: State, k: nat) returns (q: seq<Failure>)
    ensures TurnFailures(q) && CollectDoneRetired(s, k).failures == s.failures + q
    decreases |s.retired| - k
  {
    q := [];
    if k < |s.retired| {
      if IsDone(s, s.retired[k].turn.task) {
        var s1 := CollectRetired(s, k);
        var rest := RetiredFail(s1, k);
        q := s1.failures[|s.failures|..] + rest;
      } else {
        q := RetiredFail(s, k + 1);
      }
    }
  }

  lemma {:induction false} ActiveFail(s: State, order: seq<ConversationId>) returns (q: seq<Failure>)
    ensures TurnFailures(q) && CollectDoneActive(s, order).failures == s.failures + q
  {
    q := [];
    if order != [] {
      var c := order[|order| - 1];
      q := ActiveFail(s, order[..|order| - 1]);
      var s1 := CollectDoneActive(s, order[..|order| - 1]);
      if c in s1.active && IsDone(s1, s1.active[c].task) {
        CollectedResult(s1, c);
        q := q + CollectCompleted(s1, c).failures[|s1.failures|..];
      }
    }
  }

  /** Every provider cancel that broke is among the failures after a drain, between those of the
      retired turns and those of the active ones. */
  lemma BrokenCancelsFail(s: State, order: seq<ConversationId>) returns (retired: seq<Failure>, active: seq<Failure>)
    ensures TurnFailures(retired) && TurnFailures(active)
    ensures CollectAll(s, order).failures == s.failures + retired + BrokenCancels(s.cancels) + active
  {
    RetiredSpares(s, 0);
    retired := RetiredFail(s, 0);
    active := ActiveFail(CollectDoneCancels(CollectDoneRetired(s, 0)), order);
  }

  /** The retired turns that still run, in order. */
  function StillRetired(tasks: seq<Task>, turns: seq<RetiredTurn>): seq<RetiredTurn> {
    if turns == [] then []
    else
      var rest := StillRetired(tasks, turns[1..]);
      var i := turns[0].turn.task;
      if i < |tasks| && tasks[i].outcome.Some? then rest else [turns[0]] + rest
  }

  lemma OneRetiredTaken(s: State, k: nat)
    requires k < |s.retired| && IsDone(s, s.retired[k].turn.task)
    ensures var s1 := CollectRetired(s, k);
            && s1.tasks == s.tasks && |s1.retired| == |s.retired| - 1
            && s1.retired[..k] == s.retired[..k] && s1.retired[k..] == s.retired[k + 1..]
  {
  }

  lemma StillRetiredFrom(tasks: seq<Task>, turns: seq<RetiredTurn>, k: nat)
    requires k < |turns|
    ensures var i := turns[k].turn.task; var rest := StillRetired(tasks, turns[k + 1..]);
            StillRetired(tasks, turns[k..]) ==
            if i < |tasks| && tasks[i].outcome.Some? then rest else [turns[k]] + rest
  {
    assert turns[k..][1..] == turns[k + 1..];
  }

  lemma KeptBefore(turns: seq<RetiredTurn>, k: nat, rest: seq<RetiredTurn>)
    requires k < |turns|
    ensures turns[..k + 1] + rest == turns[..k] + ([turns[k]] + rest)
  {
  }

  lemma {:induction false} RetiredStay(s: State, k: nat)
    requires k <= |s.retired|
    ensures CollectDoneRetired(s, k).retired == s.retired[..k] + StillRetired(s.tasks, s.retired[k..])
    decreases |s.retired| - k
  {
    if k < |s.retired| {
      StillRetiredFrom(s.tasks, s.retired, k);
      if IsDone(s, s.retired[k].turn.task) {
        OneRetiredTaken(s, k);
        RetiredStay(CollectRetired(s, k), k);
      } else {
        RetiredStay(s, k + 1);
        KeptBefore(s.retired, k, StillRetired(s.tasks, s.retired[k + 1..]));
      }
    }
  }

  lemma {:induction false} ActiveKeepRetired(s: State, order: seq<ConversationId>)
    ensures CollectDoneActive(s, order).retired == s.retired
  {
    if order != [] {
      ActiveKeepRetired(s, order[..|order| - 1]);
    }
  }

  lemma DrainTakesEndedRetired(s: State, order: seq<ConversationId>)
    ensures CollectAll(s, order).retired == StillRetired(s.tasks, s.retired)
  {
    RetiredStay(s, 0);
    assert s.retired[..0] == [] && s.retired[0..] == s.retired;
    ActiveKeepRetired(CollectDoneCancels(CollectDoneRetired(s, 0)), order);
  }

  /** Both drains take exactly the retired turns that have ended. */
  lemma EndedRetiredAreTaken(w: World, step: Step)
    requires (step.BeginDrain? && w.phase.Idle?) || (step.TakeFailures? && w.phase.Drained?)
    ensures Next(w, step).sup.retired == StillRetired(w.sup.tasks, w.sup.retired)
  {
    DrainTakesEndedRetired(w.sup, step.order);
  }

  lemma CollectKeepsRetired(s: State, c: ConversationId)
    requires c in s.active && IsDone(s, s.active[c].task)
    ensures CollectCompleted(s, c).retired == s.retired
  {
    assert CollectActive(s, c).retired == s.retired;
  }

  lemma BeforeIdleTakesEnded(s: State, c: ConversationId)
    ensures BeforeIdleSubmit(s, c).retired == StillRetired(s.tasks, s.retired)
  {
    RetiredStay(s, 0);
    assert s.retired[..0] == [] && s.retired[0..] == s.retired;
    var s1 := CollectDoneCancels(CollectDoneRetired(s, 0));
    if c in s1.active && IsDone(s1, s1.active[c].task) {
      CollectKeepsRetired(s1, c);
    }
  }

  /** `submit_if_idle`, whether it accepts or not, first takes the retired turns and the provider
      cancels that have ended. */
  lemma SubmitIfIdleTakesEnded(s: State, t: Trigger, parent: Option<nat>)
    ensures var s' := SubmitIfIdle(s, t, parent);
            s'.retired == StillRetired(s.tasks, s.retired) && s'.cancels == StillRunning(s.cancels)
  {
    BeforeIdleTakesEnded(s, t.conversation);
    BeforeIdleSpares(s, t.conversation);
    var s1 := BeforeIdleSubmit(s, t.conversation);
    if IsIdle(s1, t.conversation) {
      SubmitStarts(s1, t, parent);
    }
  }
}
