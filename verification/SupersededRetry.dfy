/**
  A concrete run: the failure path retries a turn that a newer message had superseded
  (coke/worker/interactive_supervisor.py, coke/worker/__main__.py).
*/
module SupersededRetry {
  import opened Options
  import opened TurnTask
  import opened Supervisor
  import opened SupervisorInvariant
  import opened SupervisorRuns

  /** A turn `t` superseded by `newer` ends with an error; `newer` ends with a value and is drained. */
  function SupersededFailure(t: Trigger, newer: Trigger, result: TurnResult): seq<Step> {
    [NewTrigger(t), NewTrigger(newer), TaskStep(0, Finish(Failed)), TaskStep(1, Finish(Value(result))),
     BeginDrain([t.conversation]), TakeFailures([]), RetryNext]
  }

  /** The world after the first `k` of those steps. */
  function After(t: Trigger, newer: Trigger, result: TurnResult, k: nat): World
    requires k <= 7
  {
    Run(SupersededFailure(t, newer, result)[..k])
  }

  /** The failure path does not ask whether the failed turn had been superseded: the older turn is
      started again after the newer one, which replaced it, ended with a value and was drained. */
  lemma SupersededTurnIsRetried(t: Trigger, newer: Trigger, result: TurnResult)
    requires newer.conversation == t.conversation && t.mode.Interactive? && WorkerRetryCount(t) == 0
    ensures var s := Run(SupersededFailure(t, newer, result)).sup;
            && |s.ledger| == 3 && s.ledger[0].fate == Collected(0, Some(1), Failed)
            && s.ledger[1].fate == Collected(1, None, Value(result))
            && s.ledger[2].parent == Some(0) && s.ledger[2].fate == Active(2)
            && s.ledger[2].trigger.triggerId == t.triggerId
  {
    BothSubmitted(t, newer, result);
    FirstEnds(t, newer, result);
    SecondEnds(t, newer, result);
    BothDrained(t, newer, result);
    Retried(t, newer, result);
    assert SupersededFailure(t, newer, result)[..7] == SupersededFailure(t, newer, result);
  }

  lemma BothSubmitted(t: Trigger, newer: Trigger, result: TurnResult)
    requires newer.conversation == t.conversation
    ensures var w := After(t, newer, result, 2);
            Superseding(w, t) && w.sup.tasks == [NewTask(0).(cancelRequested := true), NewTask(1)]
  {
    var steps := SupersededFailure(t, newer, result);
    RunPrefix(steps, 0);
    RunPrefix(steps, 1);
    assert steps[..0] == [];
    var w := TwoSubmitted(t, newer);
  }

  lemma FirstEnds(t: Trigger, newer: Trigger, result: TurnResult)
    requires var w := After(t, newer, result, 2);
             Superseding(w, t) && w.sup.tasks == [NewTask(0).(cancelRequested := true), NewTask(1)]
    ensures var w := After(t, newer, result, 3);
            Superseding(w, t) && w.sup.tasks[0].outcome == Some(Failed) && w.sup.tasks[1].outcome.None?
  {
    RunPrefix(SupersededFailure(t, newer, result), 2);
    OneEnds(After(t, newer, result, 2), t, 0, Failed);
  }

  lemma SecondEnds(t: Trigger, newer: Trigger, result: TurnResult)
    requires var w := After(t, newer, result, 3);
             Superseding(w, t) && w.sup.tasks[0].outcome == Some(Failed) && w.sup.tasks[1].outcome.None?
    ensures var w := After(t, newer, result, 4);
            Superseding(w, t) && w.sup.tasks[0].outcome == Some(Failed) && w.sup.tasks[1].outcome == Some(Value(result))
  {
    RunPrefix(SupersededFailure(t, newer, result), 3);
    OneEnds(After(t, newer, result, 3), t, 1, Value(result));
  }

  lemma BothDrained(t: Trigger, newer: Trigger, result: TurnResult)
    requires var w := After(t, newer, result, 4);
             && Superseding(w, t)
             && w.sup.tasks[0].outcome == Some(Failed) && w.sup.tasks[1].outcome == Some(Value(result))
    ensures Failing(After(t, newer, result, 6), t, result)
  {
    var steps := SupersededFailure(t, newer, result);
    RunPrefix(steps, 4);
    RunPrefix(steps, 5);
    BothCollected(After(t, newer, result, 4), t, result);
  }

  lemma Retried(t: Trigger, newer: Trigger, result: TurnResult)
    requires Failing(After(t, newer, result, 6), t, result) && t.mode.Interactive? && WorkerRetryCount(t) == 0
    ensures var s := After(t, newer, result, 7).sup;
            && |s.ledger| == 3 && s.ledger[0].fate == Collected(0, Some(1), Failed)
            && s.ledger[1].fate == Collected(1, None, Value(result))
            && s.ledger[2].parent == Some(0) && s.ledger[2].fate == Active(2)
            && s.ledger[2].trigger.triggerId == t.triggerId
  {
    RunPrefix(SupersededFailure(t, newer, result), 6);
    RetryStarts(After(t, newer, result, 6), t, result);
  }

  /** The conversation has one active turn, superseding a retired one; nothing else has happened. */
  predicate Superseding(w: World, t: Trigger) {
    var s, c := w.sup, t.conversation;
    && w.phase.Idle? && w.inflight == [] && w.failing == [] && s.pending == map[] && s.completed == []
      && s.failures == []
    && |s.tasks| == 2 && |s.ledger| == 2 && |s.retired| == 1 && s.active.Keys == {c}
    && s.active[c].task == 1 && s.active[c].sub.id == 1 && s.retired[0].turn.task == 0
      && !s.retired[0].publishCompletion
    && s.retired[0].turn.sub == Submission(0, WithRunId(t))
    && s.ledger[0].trigger == WithRunId(t) && s.ledger[0].fate == Fate.Retired(0, 1) && s.ledger[1].fate == Active(1)
    && |s.cancels| == 1 && s.cancels[0].status.Running?
  }

  lemma TwoSubmitted(t: Trigger, newer: Trigger) returns (w: World)
    requires newer.conversation == t.conversation
    ensures w == Next(Next(FIRST, NewTrigger(t)), NewTrigger(newer)) && Superseding(w, t)
    ensures w.sup.tasks == [NewTask(0).(cancelRequested := true), NewTask(1)]
  {
    w := Next(Next(FIRST, NewTrigger(t)), NewTrigger(newer));
    assert w.sup.tasks == [NewTask(0).(cancelRequested := true), NewTask(1)];
    assert w.sup.active.Keys == {t.conversation};
  }

  lemma OneEnds(w: World, t: Trigger, i: nat, o: Outcome)
    requires Superseding(w, t) && i < 2 && w.sup.tasks[i].outcome.None?
    ensures var w' := Next(w, TaskStep(i, Finish(o)));
            Superseding(w', t) && w'.sup.tasks == w.sup.tasks[i := w.sup.tasks[i].(outcome := Some(o))]
  {
  }

  /** Drained and taken: the superseded turn's failure is at the head, and the conversation is idle. */
  predicate Failing(w: World, t: Trigger, result: TurnResult) {
    var s := w.sup;
    && w.phase.Retrying? && w.failing == [TurnFailure(Submission(0, WithRunId(t)))]
    && s.active == map[] && s.pending == map[] && s.retired == [] && s.completed == []
    && |s.tasks| == 2 && |s.ledger| == 2 && |s.cancels| == 1 && s.cancels[0].status.Running?
    && s.ledger[0].fate == Collected(0, Some(1), Failed) && s.ledger[1].fate == Collected(1, None, Value(result))
  }

  /** The superseded turn is collected: its failure is queued. */
  predicate FirstCollected(s: State, t: Trigger) {
    && s.retired == [] && s.failures == [TurnFailure(Submission(0, WithRunId(t)))] && s.completed == []
      && s.pending == map[]
    && s.active.Keys == {t.conversation} && s.active[t.conversation].task == 1 && s.active[t.conversation].sub.id == 1
    && |s.tasks| == 2 && |s.ledger| == 2 && |s.cancels| == 1 && s.cancels[0].status.Running?
    && s.ledger[0].fate == Collected(0, Some(1), Failed) && s.ledger[1].fate == Active(1)
  }

  lemma CollectFirst(w: World, t: Trigger)
    requires Superseding(w, t) && w.sup.tasks[0].outcome == Some(Failed)
    ensures var s := CollectDoneRetired(w.sup, 0); FirstCollected(s, t) && s.tasks == w.sup.tasks
  {
    var s1 := CollectRetired(w.sup, 0);
    assert s1.retired == [];
    assert CollectDoneRetired(w.sup, 0) == s1;
  }

  lemma CollectSecond(s: State, t: Trigger, result: TurnResult)
    requires FirstCollected(s, t) && s.tasks[1].outcome == Some(Value(result))
    ensures var s' := CollectDoneActive(CollectDoneCancels(s), [t.conversation]);
            && s'.active == map[] && s'.pending == map[] && s'.retired == [] && s'.failures == s.failures
            && s'.tasks == s.tasks && |s'.ledger| == 2 && s'.ledger[0] == s.ledger[0] && s'.cancels == s.cancels
            && s'.ledger[1].fate == Collected(1, None, Value(result))
  {
    NoneEnded(s.cancels);
    assert CollectDoneCancels(s) == s;
    DrainsLast(s, t.conversation);
  }

  lemma BothCollected(w: World, t: Trigger, result: TurnResult)
    requires Superseding(w, t)
    requires w.sup.tasks[0].outcome == Some(Failed) && w.sup.tasks[1].outcome == Some(Value(result))
    ensures Failing(Next(Next(w, BeginDrain([t.conversation])), TakeFailures([])), t, result)
  {
    CollectFirst(w, t);
    CollectSecond(CollectDoneRetired(w.sup, 0), t, result);
    NothingToCollect(Next(w, BeginDrain([t.conversation])).sup);
  }

  lemma DrainsLast(s: State, c: ConversationId)
    requires s.active.Keys == {c} && IsDone(s, s.active[c].task) && s.pending == map[]
    ensures CollectDoneActive(s, [c]) == CollectCompleted(s, c) == CollectActive(s, c)
    ensures CollectCompleted(s, c).active == map[]
  {
    assert [c][..0] == [];
    assert (s.active - {c}).Keys == {};
  }

  lemma NothingToCollect(s: State)
    requires s.retired == [] && |s.cancels| == 1 && s.cancels[0].status.Running?
    ensures CollectAll(s, []) == s
  {
    NoneEnded(s.cancels);
  }

  lemma NoneEnded(cs: seq<CancelTask>)
    requires |cs| == 1 && cs[0].status.Running?
    ensures StillRunning(cs) == cs && BrokenCancels(cs) == []
  {
    assert StillRunning(cs[..0]) == [] && BrokenCancels(cs[..0]) == [];
  }

  lemma RetryStarts(w: World, t: Trigger, result: TurnResult)
    requires Failing(w, t, result) && t.mode.Interactive? && WorkerRetryCount(t) == 0
    ensures var s := Next(w, RetryNext).sup;
            && |s.ledger| == 3 && s.ledger[0].fate == Collected(0, Some(1), Failed)
            && s.ledger[1].fate == Collected(1, None, Value(result))
            && s.ledger[2].parent == Some(0) && s.ledger[2].fate == Active(2)
            && s.ledger[2].trigger.triggerId == t.triggerId
  {
    NoneEnded(w.sup.cancels);
    assert CollectDoneRetired(w.sup, 0) == w.sup && CollectDoneCancels(w.sup) == w.sup;
  }

  lemma RunPrefix(steps: seq<Step>, k: nat)
    requires k < |steps|
    ensures Run(steps[..k + 1]) == Next(Run(steps[..k]), steps[k])
  {
    assert steps[..k + 1][..k] == steps[..k];
  }
}
