/** The failure path: how often a trigger can be started again, and how politely. */
module SupervisorRetries {
  import opened Options
  import opened TurnTask
  import opened Supervisor
  import opened SupervisorInvariant
  import opened SupervisorResults
  import opened SupervisorMethods
  import opened SupervisorRuns
  import opened SupervisorTheorems

  /** How many retries lie between submission `n` and the one it goes back to. */
  function Depth(s: State, n: nat): nat {
    if n < |s.ledger| && s.ledger[n].parent.Some? && s.ledger[n].parent.value < n
       then Depth(s, s.ledger[n].parent.value) + 1 else 0
  }

  /** The submission that `n` goes back to through the failure path. */
  function Origin(s: State, n: nat): (r: nat)
    ensures r <= n
  {
    if n < |s.ledger| && s.ledger[n].parent.Some? && s.ledger[n].parent.value < n
       then Origin(s, s.ledger[n].parent.value) else n
  }

  lemma {:induction false} DepthIsCounted(s: State, n: nat)
    requires RetriesLinked(s) && n < |s.ledger|
    ensures Depth(s, n) <= WorkerRetryCount(s.ledger[n].trigger)
    ensures Depth(s, n) <= SUPERVISED_TURN_FAILURE_RETRY_LIMIT
    ensures s.ledger[Origin(s, n)].trigger.conversation == s.ledger[n].trigger.conversation
  {
    if s.ledger[n].parent.Some? {
      DepthIsCounted(s, s.ledger[n].parent.value);
    }
  }

  /** A failed submission is retried once, so a chain of retries does not fork. */
  lemma {:induction false} RetriesDoNotFork(s: State, m: nat, n: nat)
    requires RetriesLinked(s) && m < |s.ledger| && n < |s.ledger|
    requires Origin(s, m) == Origin(s, n) && Depth(s, m) == Depth(s, n)
    ensures m == n
    decreases m
  {
    if s.ledger[m].parent.Some? {
      assert s.ledger[n].parent.Some?;
      RetriesDoNotFork(s, s.ledger[m].parent.value, s.ledger[n].parent.value);
    }
  }

  /** The tasks started for submission `r` and its retries. */
  ghost function StartsOf(s: State, r: nat): set<nat> {
    set i | 0 <= i < |s.tasks| && Origin(s, s.tasks[i].sub) == r
  }

  lemma {:induction false} FewDepths(s: State, some: set<nat>, r: nat, bound: nat)
    requires Places(s, None) && RetriesLinked(s) && some <= StartsOf(s, r)
    requires forall i :: i in some ==> Depth(s, s.tasks[i].sub) < bound
    ensures |some| <= bound
  {
    if some != {} {
      var any :| any in some;
      assert Depth(s, s.tasks[any].sub) < bound;
      if exists i :: i in some && Depth(s, s.tasks[i].sub) == bound - 1 {
        var i :| i in some && Depth(s, s.tasks[i].sub) == bound - 1;
        forall j | j in some - {i} ensures Depth(s, s.tasks[j].sub) < bound - 1 {
          if Depth(s, s.tasks[j].sub) == bound - 1 {
            RetriesDoNotFork(s, s.tasks[i].sub, s.tasks[j].sub);
          }
        }
        FewDepths(s, some - {i}, r, bound - 1);
      } else {
        FewDepths(s, some, r, bound - 1);
      }
    }
  }

  /** Over any run, each original submission is started at most 1 + the retry limit times. */
  lemma StartsAreBounded(steps: seq<Step>, r: nat)
    ensures |StartsOf(Run(steps).sup, r)| <= 1 + SUPERVISED_TURN_FAILURE_RETRY_LIMIT
    ensures |StartsOf(Run(steps).sup, r)| <= 2
  {
    RunKeeps(steps);
    var s := Run(steps).sup;
    forall i | i in StartsOf(s, r) ensures Depth(s, s.tasks[i].sub) < 1 + SUPERVISED_TURN_FAILURE_RETRY_LIMIT {
      DepthIsCounted(s, s.tasks[i].sub);
    }
    FewDepths(s, StartsOf(s, r), r, 1 + SUPERVISED_TURN_FAILURE_RETRY_LIMIT);
  }

  /** A provider cancel that failed is dropped: nothing is submitted for it, in any state. */
  lemma ProviderFailuresAreNotRetried(w: World, f: Failure)
    requires f.ProviderFailure? && w.phase.Retrying? && w.failing != [] && w.failing[0] == f
    ensures Next(w, RetryNext).sup == w.sup
  {
  }

  /** A retry is the trigger of an interactive turn that failed, with its count one higher, and
      the only retry of that turn. */
  lemma OnlyFailedTurnsAreRetried(steps: seq<Step>, n: nat)
    requires n < |Run(steps).sup.ledger| && Run(steps).sup.ledger[n].parent.Some?
    ensures var s := Run(steps).sup; var p := s.ledger[n].parent.value;
            && p < n && CollectedFailed(s, p) && s.ledger[p].child == Some(n)
            && s.ledger[p].trigger.mode.Interactive?
            && (s.ledger[p].trigger.retryCount.None? || s.ledger[p].trigger.retryCount.value <= 0)
            && s.ledger[n].trigger == WithRunId(s.ledger[p].trigger.(retryCount := Some(1)))
  {
    RunKeeps(steps);
  }

  /** Every turn that ended with an error has exactly one entry among the failures ever queued,
      and the failures still to be looked at are the last of these: none is passed over. */
  lemma EveryFailureIsLookedAt(steps: seq<Step>, n: nat)
    requires CollectedFailed(Run(steps).sup, n)
    ensures var w := Run(steps);
            && Suffix(w.failing + w.sup.failures, w.sup.failed)
            && exists k :: FailedAt(w.sup, k, n) && forall j: nat :: FailedAt(w.sup, j, n) ==> j == k
  {
    RunKeeps(steps);
    var s := Run(steps).sup;
    assert InFailed(s, n);
    var k :| 0 <= k < |s.failed| && s.failed[k].TurnFailure? && s.failed[k].sub.id == n;
    assert FailedAt(s, k, n);
  }

  predicate FailedAt(s: State, k: nat, n: nat) {
    k < |s.failed| && s.failed[k].TurnFailure? && s.failed[k].sub.id == n
  }

  // -------------------------------------------------------------- submit_if_idle

  predicate Accepted(s: State, t: Trigger) { IsIdle(BeforeIdleSubmit(s, t.conversation), t.conversation) }

  /** Collecting retired turns queues no completion. */
  lemma {:induction false} RetiredQueueNothing(s: State, k: nat)
    requires Places(s, None)
    ensures CollectDoneRetired(s, k).completed == s.completed
    decreases |s.retired| - k
  {
    if k < |s.retired| {
      if IsDone(s, s.retired[k].turn.task) {
        CollectRetiredPlaces(s, k);
        RetiredQueueNothing(CollectRetired(s, k), k);
        assert CollectRetired(s, k).completed == s.completed;
      } else {
        RetiredQueueNothing(s, k + 1);
      }
    }
  }

  /** What waits goes on waiting, unless its own conversation `c` has just started it. */
  ghost predicate PendingSafe(s: State, s': State, c: ConversationId) {
    forall d :: d in s.pending ==>
      if d in s'.pending then s'.pending[d] == s.pending[d]
      else d == c && d in s'.active && s'.active[d].sub.id == s.pending[d].id
  }

  ghost predicate TasksUntouched(s: State, s': State) {
    |s.tasks| <= |s'.tasks| && s'.tasks[..|s.tasks|] == s.tasks
  }

  /** `submit_if_idle` never cancels a task, never replaces what waits, and never runs while the
      conversation has a running turn, a waiting submission or an undrained completion. */
  lemma SubmitIfIdleIsPolite(s: State, t: Trigger, parent: Option<nat>)
    requires Places(s, None)
    ensures var s' := SubmitIfIdle(s, t, parent); var c := t.conversation;
            && TasksUntouched(s, s') && PendingSafe(s, s', c) && |s'.retired| <= |s.retired|
            && |s'.ledger| == |s.ledger| + Count(Accepted(s, t))
            && (Accepted(s, t) ==>
                  && c !in s.pending
                  && (forall k :: 0 <= k < |s.completed| ==> s.completed[k].sub.trigger.conversation != c)
                  && (c in s.active ==> HasEnded(s, s.active[c].task)))
  {
    var c := t.conversation;
    var s1 := BeforeIdleSubmit(s, c);
    BeforeIdleSubmitIsPolite(s, c);
    AcceptedIff(s, t);
    if IsIdle(s1, c) {
      IdleSubmitOnlyAdds(s1, t, parent);
      BothPolite(s, s1, Submit(s1, t, parent), c);
    }
  }

  lemma BeforeIdleSubmitIsPolite(s: State, c: ConversationId)
    requires Places(s, None)
    ensures var s1 := BeforeIdleSubmit(s, c);
            TasksUntouched(s, s1) && PendingSafe(s, s1, c) && |s1.retired| <= |s.retired| && |s1.ledger| == |s.ledger|
  {
    RetiredLeaveActive(s, 0);
    var s0 := CollectDoneCancels(CollectDoneRetired(s, 0));
    if c in s0.active && IsDone(s0, s0.active[c].task) {
      CollectIsPolite(s0, c);
    }
  }

  lemma StillUndrained(s: State, s1: State, c: ConversationId)
    requires s.completed <= s1.completed
    ensures HasCompletion(s, c) ==> HasCompletion(s1, c)
  {
    if HasCompletion(s, c) {
      var k :| 0 <= k < |s.completed| && s.completed[k].sub.trigger.conversation == c;
      assert s1.completed[k].sub.trigger.conversation == c;
    }
  }

  lemma BothPolite(s: State, s1: State, s2: State, c: ConversationId)
    requires TasksUntouched(s, s1) && PendingSafe(s, s1, c) && c !in s1.pending && c !in s1.active
    requires TasksUntouched(s1, s2) && s2.pending == s1.pending
    ensures TasksUntouched(s, s2) && PendingSafe(s, s2, c)
  {
  }

  lemma IdleSubmitStarts(s: State, t: Trigger, parent: Option<nat>)
    requires IsIdle(s, t.conversation)
    ensures var s' := Submit(s, t, parent); var n := |s.ledger|;
            && |s'.ledger| == n + 1 && s'.ledger[n].parent == parent
            && s'.ledger[n].trigger == WithRunId(t) && s'.ledger[n].fate == Active(|s.tasks|)
  {
  }

  lemma IdleSubmitOnlyAdds(s: State, t: Trigger, parent: Option<nat>)
    requires IsIdle(s, t.conversation)
    ensures var s' := Submit(s, t, parent);
            TasksUntouched(s, s') && s'.pending == s.pending && s'.retired == s.retired && |s'.ledger| == |s.ledger| + 1
  {
    assert Submit(s, t, parent).tasks == s.tasks + [NewTask(|s.ledger|)];
  }

  lemma CollectIsPolite(s: State, c: ConversationId)
    requires c in s.active && IsDone(s, s.active[c].task) && PendingKeyed(s)
    ensures var s' := CollectCompleted(s, c);
            TasksUntouched(s, s') && PendingSafe(s, s', c) && s'.retired == s.retired && |s'.ledger| == |s.ledger|
              && s.completed <= s'.completed
  {
    var s1 := CollectActive(s, c);
    assert s1.pending == s.pending && s1.tasks == s.tasks && s1.retired == s.retired && |s1.ledger| == |s.ledger|;
    if c in s.pending {
      StartPendingIsPolite(s1, c);
    }
  }

  lemma StartPendingIsPolite(s: State, c: ConversationId)
    requires c in s.pending && PendingKeyed(s)
    ensures var s' := StartPendingIfAny(s, c);
            TasksUntouched(s, s') && PendingSafe(s, s', c) && s'.retired == s.retired && |s'.ledger| == |s.ledger|
              && s'.completed == s.completed
  {
    assert StartPendingIfAny(s, c).tasks == s.tasks + [NewTask(s.pending[c].id)];
  }

  // ------------------------------------------------- when a failed turn is started again

  /** Nothing of the conversation waits, runs, or is about to be published: no submission behind an
      active turn, no undrained completion, and an active turn only if it ended without a value. */
  predicate Quiescent(s: State, c: ConversationId) {
    && c !in s.pending
    && (forall k :: 0 <= k < |s.completed| ==> s.completed[k].sub.trigger.conversation != c)
    && (c in s.active ==> HasEnded(s, s.active[c].task) && !s.tasks[s.active[c].task].outcome.value.Value?)
  }

  lemma CollectedIdleIff(s: State, c: ConversationId)
    requires PendingKeyed(s) && c in s.active && s.active[c].sub.trigger.conversation == c
             && IsDone(s, s.active[c].task)
    ensures IsIdle(CollectCompleted(s, c), c) <==> Quiescent(s, c)
  {
    CollectHandsOn(s, c);
    var s' := CollectCompleted(s, c);
    QueuesOwnResult(s, c);
    StillUndrained(s, s', c);
    if s.tasks[s.active[c].task].outcome.value.Value? {
      assert s'.completed[|s.completed|].sub.trigger.conversation == c;
    }
  }

  lemma QueuesOwnResult(s: State, c: ConversationId)
    requires c in s.active && IsDone(s, s.active[c].task)
    ensures var s' := CollectCompleted(s, c);
            match s.tasks[s.active[c].task].outcome.value
            case Value(result) => s'.completed == s.completed + [Completion(s.active[c].sub, result)]
            case _ => s'.completed == s.completed
  {
  }

  /** `submit_if_idle` accepts exactly if the conversation was quiescent when it was called. */
  lemma AcceptedIff(s: State, t: Trigger)
    requires Places(s, None)
    ensures Accepted(s, t) <==> Quiescent(s, t.conversation)
  {
    var c := t.conversation;
    RetiredLeaveActive(s, 0);
    RetiredQueueNothing(s, 0);
    var s0 := CollectDoneCancels(CollectDoneRetired(s, 0));
    assert Quiescent(s0, c) <==> Quiescent(s, c);
    if c in s0.active && IsDone(s0, s0.active[c].task) {
      CollectedIdleIff(s0, c);
    }
  }

  /** What has to hold, before the failure path looks at a failure, for it to start a retry. */
  predicate MayStartAgain(s: State, f: Failure) {
    && f.TurnFailure? && f.sub.trigger.mode.Interactive?
    && (f.sub.trigger.retryCount.None? || f.sub.trigger.retryCount.value <= 0)
    && Quiescent(s, f.sub.trigger.conversation)
  }

  /** From `s` to `s'` one submission was added: a started retry of `n`. */
  predicate StartsAgain(s: State, s': State, n: nat) {
    && |s'.ledger| == |s.ledger| + 1
    && var e := s'.ledger[|s.ledger|];
       && e.parent == Some(n) && e.fate.Active? && n < |s.ledger|
       && e.trigger == WithRunId(s.ledger[n].trigger.(retryCount := Some(1)))
  }

  /** In every reachable world, looking at a failure starts the failed trigger again exactly if it
      is an interactive turn's, under the limit, and its conversation is quiescent; otherwise
      nothing is submitted. Whether the failed turn had been superseded does not matter. */
  lemma RetriedIff(steps: seq<Step>)
    requires Run(steps).phase.Retrying? && Run(steps).failing != []
    ensures var w := Run(steps); var f := w.failing[0]; var s' := Next(w, RetryNext).sup;
            if MayStartAgain(w.sup, f) then StartsAgain(w.sup, s', f.sub.id) else |s'.ledger| == |w.sup.ledger|
  {
    RunKeeps(steps);
    HeadRetried(Run(steps));
  }

  lemma HeadRetried(w: World)
    requires WorldOk(w) && w.phase.Retrying? && w.failing != []
    ensures var f := w.failing[0]; var s' := Next(w, RetryNext).sup;
            if MayStartAgain(w.sup, f) then StartsAgain(w.sup, s', f.sub.id) else |s'.ledger| == |w.sup.ledger|
  {
    PlacesHold(w);
    if w.failing[0].TurnFailure? {
      HeadIsInLedger(w);
    }
    PlacedRetried(w);
  }

  lemma PlacedRetried(w: World)
    requires Places(w.sup, None) && w.phase.Retrying? && w.failing != []
    requires var f := w.failing[0];
             f.TurnFailure? ==> f.sub.id < |w.sup.ledger| && w.sup.ledger[f.sub.id].trigger == f.sub.trigger
    ensures var f := w.failing[0]; var s' := Next(w, RetryNext).sup;
            if MayStartAgain(w.sup, f) then StartsAgain(w.sup, s', f.sub.id) else |s'.ledger| == |w.sup.ledger|
  {
    RetryStarts(w.sup, w.failing[0]);
  }

  lemma RetryStarts(s: State, f: Failure)
    requires Places(s, None)
    requires f.TurnFailure? ==> f.sub.id < |s.ledger| && s.ledger[f.sub.id].trigger == f.sub.trigger
    ensures if MayStartAgain(s, f) then StartsAgain(s, Retry(s, f), f.sub.id) else |Retry(s, f).ledger| == |s.ledger|
  {
    var t := RetryTrigger(f);
    if t.Some? {
      AcceptedIff(s, t.value);
      BeforeIdleSubmitIsPolite(s, t.value.conversation);
      var s1 := BeforeIdleSubmit(s, t.value.conversation);
      if IsIdle(s1, t.value.conversation) {
        IdleSubmitStarts(s1, t.value, Some(f.sub.id));
      }
    }
  }

  lemma HeadIsInLedger(w: World)
    requires WorldOk(w) && w.failing != [] && w.failing[0].TurnFailure?
    ensures var sub := w.failing[0].sub; sub.id < |w.sup.ledger| && w.sup.ledger[sub.id].trigger == sub.trigger
  {
    assert (w.failing + w.sup.failures)[0] == w.failing[0];
  }

  /** So a superseded turn whose failure is looked at is started again exactly under these
      conditions: the exact extent of "a superseded turn is not run again" failing. */
  lemma SupersededTurnIsRetriedIff(steps: seq<Step>, n: nat)
    requires Run(steps).phase.Retrying? && Run(steps).failing != []
    requires var w := Run(steps);
             && w.failing[0].TurnFailure? && w.failing[0].sub.id == n
             && n < |w.sup.ledger| && w.sup.ledger[n].fate.Collected? && w.sup.ledger[n].fate.superseded.Some?
    ensures var w := Run(steps); var t := w.sup.ledger[n].trigger;
            StartsAgain(w.sup, Next(w, RetryNext).sup, n) <==>
            && t.mode.Interactive? && (t.retryCount.None? || t.retryCount.value <= 0)
            && Quiescent(w.sup, t.conversation)
  {
    RunKeeps(steps);
    HeadIsInLedger(Run(steps));
    RetriedIff(steps);
  }
}
