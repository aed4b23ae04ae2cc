/** What the supervisor and the worker's drain loop guarantee, over every run. */
module SupervisorTheorems {
  import opened Options
  import opened TurnTask
  import opened Supervisor
  import opened SupervisorInvariant
  import opened SupervisorResults
  import opened SupervisorMethods
  import opened SupervisorRuns
  import opened SupervisorHistory

  // ------------------------------------------------------ conservation of submissions

  ghost predicate IsActive(s: State, n: nat) {
    exists c :: c in s.active && s.active[c].sub.id == n
  }

  ghost predicate IsPending(s: State, n: nat) {
    exists c :: c in s.pending && s.pending[c].id == n
  }

  predicate WasCollected(s: State, n: nat) { n < |s.ledger| && s.ledger[n].fate.Collected? }

  predicate WasReplaced(s: State, n: nat) { n < |s.ledger| && s.ledger[n].fate.Replaced? }

  function Count(b: bool): nat { if b then 1 else 0 }

  /** Every accepted submission is in exactly one of the five places. */
  lemma ConservationOfSubmissions(steps: seq<Step>, n: nat)
    requires n < |Run(steps).sup.ledger|
    ensures var s := Run(steps).sup;
            Count(IsActive(s, n)) + Count(IsPending(s, n)) + Count(InRetired(s, n)) + Count(WasCollected(s, n))
              + Count(WasReplaced(s, n)) == 1
  {
    RunKeeps(steps);
    var s := Run(steps).sup;
    assert FateTrue(s, n);
  }

  /** No container holds a submission twice. */
  lemma HeldOnce(steps: seq<Step>)
    ensures var s := Run(steps).sup;
            && (forall c, d :: c in s.active && d in s.active && s.active[c].sub.id == s.active[d].sub.id ==> c == d)
            && (forall c, d :: c in s.pending && d in s.pending && s.pending[c].id == s.pending[d].id ==> c == d)
            && (forall j, k :: 0 <= j < k < |s.retired| ==> s.retired[j].turn.sub.id != s.retired[k].turn.sub.id)
  {
    RunKeeps(steps);
  }

  /** No later submission of the same conversation. */
  predicate Newest(s: State, n: nat) {
    n < |s.ledger| && forall m :: n < m < |s.ledger| ==>
      s.ledger[m].trigger.conversation != s.ledger[n].trigger.conversation
  }

  /** The newest submission of a conversation is never cancelled, retired or replaced: it runs,
      waits, or was collected for publishing. */
  lemma NewestGetsItsTurn(steps: seq<Step>, n: nat)
    requires Newest(Run(steps).sup, n)
    ensures var s := Run(steps).sup;
            && (IsActive(s, n) || IsPending(s, n) || (WasCollected(s, n) && s.ledger[n].fate.superseded.None?))
            && (forall i :: 0 <= i < |s.tasks| && s.tasks[i].sub == n ==> !s.tasks[i].cancelRequested)
  {
    RunKeeps(steps);
    var s := Run(steps).sup;
    assert FateTrue(s, n);
  }

  /** At most one task of a conversation runs without having been asked to cancel. */
  lemma OneUncancelledTask(steps: seq<Step>, i: nat, j: nat)
    requires i < j < |Run(steps).sup.tasks|
    requires var ts := Run(steps).sup.tasks;
             && ts[i].outcome.None? && !ts[i].cancelRequested
             && ts[j].outcome.None? && !ts[j].cancelRequested
    ensures var s := Run(steps).sup;
            && s.tasks[i].sub < |s.ledger| && s.tasks[j].sub < |s.ledger|
            && s.ledger[s.tasks[i].sub].trigger.conversation != s.ledger[s.tasks[j].sub].trigger.conversation
  {
    RunKeeps(steps);
    var s := Run(steps).sup;
    assert FateTrue(s, s.tasks[i].sub) && FateTrue(s, s.tasks[j].sub);
  }

  // ------------------------------------------------------------- waiting submissions

  /** A submission waits only behind an active turn of its conversation whose close is
      committed and which nobody has asked to cancel. */
  lemma PendingBehindCommitted(steps: seq<Step>, c: ConversationId)
    requires c in Run(steps).sup.pending
    ensures var s := Run(steps).sup;
            && c in s.active && s.active[c].task < |s.tasks|
            && s.tasks[s.active[c].task].closeCommitted && !s.tasks[s.active[c].task].cancelRequested
  {
    RunKeeps(steps);
  }

  /** A turn that committed its close is never asked to cancel afterwards; it stays active until
      it is collected for publishing, and a value it returned is queued exactly once. */
  lemma ClosedTurnIsCollectedOnce(steps: seq<Step>, more: seq<Step>, i: nat)
    requires i < |Run(steps).sup.tasks| && Run(steps).sup.tasks[i].closeCommitted
    ensures var s := Run(steps + more).sup;
            && i < |s.tasks| && s.tasks[i].sub == Run(steps).sup.tasks[i].sub < |s.ledger|
            && !s.tasks[i].cancelRequested
            && (var f := s.ledger[s.tasks[i].sub].fate;
                && (f == Active(i) || (f.Collected? && f.task == i && f.superseded.None?))
                && (f.Collected? && f.outcome.Value? ==>
                      exists k :: QueuedAt(s, k, s.tasks[i].sub, f.outcome.result)
                                  && forall j :: 0 <= j < |s.collected| && s.collected[j].sub.id == s.tasks[i].sub ==>
                                    j == k))
  {
    RunKept(steps, more);
    RunKeeps(steps + more);
    var s := Run(steps + more).sup;
    var n := s.tasks[i].sub;
    assert FateTrue(s, n);
    if CollectedValue(s, n) {
      assert InCollected(s, n);
      var k :| 0 <= k < |s.collected| && s.collected[k].sub.id == n;
      assert QueuedAt(s, k, n, s.ledger[n].fate.outcome.result);
    }
  }

  predicate QueuedAt(s: State, k: nat, n: nat, result: TurnResult) {
    k < |s.collected| && s.collected[k].sub.id == n && s.collected[k].result == result
  }

  predicate HasEnded(s: State, task: nat) { task < |s.tasks| && s.tasks[task].outcome.Some? }

  /** From `s` to `s'` the active turn of `c` is gone, and what waited behind it has started. */
  predicate HandedOn(s: State, s': State, c: ConversationId) {
    && c !in s'.pending
    && (c in s'.active <==> c in s.pending)
    && (c in s.pending ==>
         && s'.active[c].sub == Submission(s.pending[c].id, WithRunId(s.pending[c].trigger))
         && s'.active[c].task < |s'.tasks| && s'.tasks[s'.active[c].task].outcome.None?)
  }

  /** Nothing changed for `c`. */
  predicate SameFor(s: State, s': State, c: ConversationId) {
    && (c in s'.active <==> c in s.active) && (c in s.active ==> s'.active[c] == s.active[c])
    && (c in s'.pending <==> c in s.pending) && (c in s.pending ==> s'.pending[c] == s.pending[c])
  }

  lemma CollectHandsOn(s: State, c: ConversationId)
    requires c in s.active && HasEnded(s, s.active[c].task) && PendingKeyed(s)
    ensures HandedOn(s, CollectCompleted(s, c), c)
    ensures PendingKeyed(CollectCompleted(s, c))
  {
    var s1 := CollectActive(s, c);
    assert s1.pending == s.pending && s1.active == s.active - {c};
  }

  lemma CollectLeavesOthers(s: State, d: ConversationId, c: ConversationId)
    requires d in s.active && IsDone(s, s.active[d].task) && c != d && PendingKeyed(s)
    ensures SameFor(s, CollectCompleted(s, d), c)
    ensures OutcomesStay(s, CollectCompleted(s, d))
  {
    var s1 := CollectActive(s, d);
    assert s1.pending == s.pending && s1.active == s.active - {d} && s1.tasks == s.tasks;
    var s' := CollectCompleted(s, d);
    if d in s.pending {
      assert s'.tasks == s.tasks + [NewTask(s.pending[d].id)];
    }
  }

  /** The tasks there were have ended, or not, as before. */
  predicate OutcomesStay(s: State, s': State) {
    |s.tasks| <= |s'.tasks| && forall i :: 0 <= i < |s.tasks| ==> s'.tasks[i].outcome == s.tasks[i].outcome
  }

  /** How conversation `c`, whose active turn had ended, stands after a drain that looked at it or not. */
  predicate Stands(s: State, s': State, c: ConversationId, looked: bool) {
    if looked then HandedOn(s, s', c) else SameFor(s, s', c) && c in s'.active && HasEnded(s', s'.active[c].task)
  }

  lemma StandsStill(s: State, s': State, s'': State, c: ConversationId, looked: bool)
    requires Stands(s, s', c, looked) && SameFor(s', s'', c) && OutcomesStay(s', s'')
    ensures Stands(s, s'', c, looked)
  {
  }

  lemma StandsHandedOn(s: State, s': State, c: ConversationId)
    requires Stands(s, s', c, false) && PendingKeyed(s')
    ensures Stands(s, CollectCompleted(s', c), c, true)
  {
    CollectHandsOn(s', c);
  }

  lemma OneConversation(s: State, s': State, d: ConversationId, c: ConversationId, looked: bool)
    requires Stands(s, s', c, looked) && PendingKeyed(s')
    ensures var s'' := if d in s'.active && IsDone(s', s'.active[d].task) then CollectCompleted(s', d) else s';
            PendingKeyed(s'') && Stands(s, s'', c, looked || d == c)
  {
    if d in s'.active && IsDone(s', s'.active[d].task) {
      CollectHandsOn(s', d);
      if d == c {
        StandsHandedOn(s, s', c);
      } else {
        CollectLeavesOthers(s', d, c);
        StandsStill(s, s', CollectCompleted(s', d), c, looked);
      }
    }
  }

  lemma {:induction false} DrainStands(s: State, order: seq<ConversationId>, c: ConversationId)
    requires c in s.active && HasEnded(s, s.active[c].task) && PendingKeyed(s)
    ensures PendingKeyed(CollectDoneActive(s, order)) && Stands(s, CollectDoneActive(s, order), c, c in order)
  {
    if order != [] {
      var d := order[|order| - 1];
      var init := order[..|order| - 1];
      DrainStands(s, init, c);
      assert c in order <==> c in init || c == d;
      OneConversation(s, CollectDoneActive(s, init), d, c, c in init);
    }
  }

  /** A drain hands on every conversation it looks at whose active turn is done, and leaves the
      others alone. */
  lemma DrainHandsOn(s: State, order: seq<ConversationId>, c: ConversationId)
    requires c in s.active && HasEnded(s, s.active[c].task) && PendingKeyed(s)
    ensures var s' := CollectDoneActive(s, order);
            && PendingKeyed(s')
            && (if c in order then HandedOn(s, s', c) else SameFor(s, s', c) && HasEnded(s', s'.active[c].task))
  {
    DrainStands(s, order, c);
  }

  lemma CollectAllHandsOn(s: State, order: seq<ConversationId>, c: ConversationId)
    requires Places(s, None) && c in order && c in s.active && HasEnded(s, s.active[c].task)
    ensures HandedOn(s, CollectAll(s, order), c)
  {
    RetiredLeaveActive(s, 0);
    DrainHandsOn(CollectDoneCancels(CollectDoneRetired(s, 0)), order, c);
  }

  lemma QueuesTakeNoPart(s: State, s1: State, s2: State, c: ConversationId)
    requires HandedOn(s, s1, c) && s2.active == s1.active && s2.pending == s1.pending && s2.tasks == s1.tasks
    ensures HandedOn(s, s2, c)
  {
  }

  lemma DrainCompletedHandsOn(s: State, order: seq<ConversationId>, c: ConversationId)
    requires Places(s, None) && c in order && c in s.active && HasEnded(s, s.active[c].task)
    ensures HandedOn(s, DrainCompleted(s, order), c)
  {
    CollectAllHandsOn(s, order, c);
    QueuesTakeNoPart(s, CollectAll(s, order), DrainCompleted(s, order), c);
  }

  lemma DrainFailuresHandsOn(s: State, order: seq<ConversationId>, c: ConversationId)
    requires Places(s, None) && c in order && c in s.active && HasEnded(s, s.active[c].task)
    ensures HandedOn(s, DrainFailures(s, order), c)
  {
    CollectAllHandsOn(s, order, c);
    QueuesTakeNoPart(s, CollectAll(s, order), DrainFailures(s, order), c);
  }

  /** In a run, both drains hand on every conversation whose active turn is done: the waiting
      submission starts, so it is not stranded. */
  lemma PendingIsNeverStranded(steps: seq<Step>, order: seq<ConversationId>, c: ConversationId)
    requires c in order
    requires var s := Run(steps).sup; c in s.active && HasEnded(s, s.active[c].task)
    ensures Run(steps).phase.Idle? ==> HandedOn(Run(steps).sup, Next(Run(steps), BeginDrain(order)).sup, c)
    ensures Run(steps).phase.Drained? ==> HandedOn(Run(steps).sup, Next(Run(steps), TakeFailures(order)).sup, c)
  {
    RunKeeps(steps);
    PlacesHold(Run(steps));
    BeginDrainHandsOn(Run(steps), order, c);
    TakeFailuresHandsOn(Run(steps), order, c);
  }

  lemma BeginDrainHandsOn(w: World, order: seq<ConversationId>, c: ConversationId)
    requires Places(w.sup, None) && c in order && c in w.sup.active && HasEnded(w.sup, w.sup.active[c].task)
    ensures w.phase.Idle? ==> HandedOn(w.sup, Next(w, BeginDrain(order)).sup, c)
  {
    DrainCompletedHandsOn(w.sup, order, c);
  }

  lemma TakeFailuresHandsOn(w: World, order: seq<ConversationId>, c: ConversationId)
    requires Places(w.sup, None) && c in order && c in w.sup.active && HasEnded(w.sup, w.sup.active[c].task)
    ensures w.phase.Drained? ==> HandedOn(w.sup, Next(w, TakeFailures(order)).sup, c)
  {
    DrainFailuresHandsOn(w.sup, order, c);
  }

  lemma PlacesHold(w: World)
    requires WorldOk(w)
    ensures Places(w.sup, None)
  {
  }

  lemma {:induction false} RetiredLeaveActive(s: State, k: nat)
    ensures var s' := CollectDoneRetired(s, k);
            s'.active == s.active && s'.pending == s.pending && s'.tasks == s.tasks && |s'.ledger| == |s.ledger|
    decreases |s.retired| - k
  {
    if k < |s.retired| {
      if IsDone(s, s.retired[k].turn.task) {
        RetiredLeaveActive(CollectRetired(s, k), k);
      } else {
        RetiredLeaveActive(s, k + 1);
      }
    }
  }

  // ------------------------------------------------------------------ publishing

  /** In every reachable state the publishes so far, then what is being published, then what
      waits in `_completed`, are all the completions ever queued, in order; between drains the
      middle part is empty. */
  lemma PublishedInOrder(steps: seq<Step>)
    ensures var w := Run(steps);
            && w.published + w.inflight + w.sup.completed == w.sup.collected
            && (w.phase.Idle? ==> w.published + w.sup.completed == w.sup.collected)
  {
    RunKeeps(steps);
    var w := Run(steps);
    if w.phase.Idle? {
      assert w.published + w.inflight == w.published;
    }
  }

  predicate PublishedAt(w: World, k: nat, n: nat, result: TurnResult) {
    k < |w.published| && w.published[k].sub.id == n && w.published[k].result == result
  }

  /** A completion is published at most once, only for a turn that was never superseded, and with
      the value the turn returned. */
  lemma PublishedAtMostOnce(steps: seq<Step>, k: nat)
    requires k < |Run(steps).published|
    ensures var w := Run(steps); var n := w.published[k].sub.id;
            && CollectedValue(w.sup, n) && w.sup.ledger[n].fate.outcome == Value(w.published[k].result)
            && w.sup.ledger[n].trigger == w.published[k].sub.trigger
            && (forall j :: 0 <= j < |w.published| && w.published[j].sub.id == n ==> j == k)
  {
    RunKeeps(steps);
    var w := Run(steps);
    assert forall j :: 0 <= j < |w.published| ==> w.sup.collected[j] == w.published[j];
  }

  /** Whenever nothing is being published or waits to be, every turn that was collected with a
      value and not superseded has been published, with that value. */
  lemma EverythingIsPublished(steps: seq<Step>, n: nat)
    requires var w := Run(steps); w.inflight == [] && w.sup.completed == [] && CollectedValue(w.sup, n)
    ensures exists k :: PublishedAt(Run(steps), k, n, Run(steps).sup.ledger[n].fate.outcome.result)
  {
    RunKeeps(steps);
    var w := Run(steps);
    assert w.published == w.sup.collected;
    assert InCollected(w.sup, n);
    var k :| 0 <= k < |w.sup.collected| && w.sup.collected[k].sub.id == n;
    assert PublishedAt(w, k, n, w.sup.ledger[n].fate.outcome.result);
  }
}
