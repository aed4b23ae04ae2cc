/** Every method of the supervisor keeps places and results together. */
module SupervisorMethods {
  import opened Options
  import opened TurnTask
  import opened Supervisor
  import opened SupervisorInvariant
  import opened SupervisorResults

  /** Only `x`, if anything, is still between acceptance and its place. */
  ghost predicate Settled(s: State, x: Option<nat>) {
    forall n :: 0 <= n < |s.ledger| && s.ledger[n].fate.Arriving? ==> x == Some(n)
  }

  ghost predicate Good(s: State, hole: Option<ConversationId>, x: Option<nat>, held: seq<Failure>,
                       ahead: seq<Completion>)
  {
    Places(s, hole) && Settled(s, x) && Results(s, held, ahead)
  }

  // ---------------------------------------------------------------- elementary changes

  /** A change of places that leaves the results alone. */
  lemma SameGood(s: State, s': State, hole: Option<ConversationId>, x: Option<nat>, hole': Option<ConversationId>,
                 x': Option<nat>,
                 held: seq<Failure>, ahead: seq<Completion>)
    requires Good(s, hole, x, held, ahead)
    requires Places(s', hole') && Settled(s', x') && SameResults(s, s')
    ensures Good(s', hole', x', held, ahead)
  {
    SameKeeps(s, s', held, ahead);
  }

  /** One submission gets a place, or loses it; it has not ended. */
  lemma FateChanges(s: State, s': State, n: nat, f: Fate)
    requires n < |s.ledger| && !s.ledger[n].fate.Collected? && !f.Collected?
    requires s'.ledger == s.ledger[n := s.ledger[n].(fate := f)]
    requires s'.completed == s.completed && s'.failures == s.failures && s'.collected == s.collected
             && s'.failed == s.failed
    ensures SameResults(s, s')
    ensures Settled(s, None) ==> Settled(s', if f.Arriving? then Some(n) else None)
    ensures Settled(s, Some(n)) && !f.Arriving? ==> Settled(s', None)
    ensures forall x :: Settled(s, x) && !f.Arriving? ==> Settled(s', x)
  {
  }

  lemma StartPlaces(s: State, sub: Submission, hole: Option<ConversationId>)
    requires Places(s, hole)
    requires sub.id < |s.ledger| && s.ledger[sub.id].fate == Arriving
             && s.ledger[sub.id].trigger == WithRunId(sub.trigger)
    requires var c := sub.trigger.conversation; c !in s.active && c !in s.pending
    ensures Places(StartTrigger(s, sub), hole)
  {
    StartKeepsLedger(s, sub, hole);
    StartKeepsContainers(s, sub, hole);
    StartKeepsTasks(s, sub, hole);
  }

  lemma StartGood(s: State, sub: Submission, hole: Option<ConversationId>,
                   held: seq<Failure>, ahead: seq<Completion>)
    requires Good(s, hole, Some(sub.id), held, ahead)
    requires sub.id < |s.ledger| && s.ledger[sub.id].fate == Arriving
             && s.ledger[sub.id].trigger == WithRunId(sub.trigger)
    requires var c := sub.trigger.conversation; c !in s.active && c !in s.pending
    ensures Good(StartTrigger(s, sub), hole, None, held, ahead)
  {
    StartPlaces(s, sub, hole);
    FateChanges(s, StartTrigger(s, sub), sub.id, Fate.Active(|s.tasks|));
    SameGood(s, StartTrigger(s, sub), hole, Some(sub.id), hole, None, held, ahead);
  }

  lemma TakePendingPlaces(s: State, c: ConversationId)
    requires Places(s, Some(c)) && c in s.pending && c !in s.active
    ensures Places(TakePending(s, c), None)
  {
    TakePendingKeepsLedger(s, c);
    TakePendingKeepsContainers(s, c);
    TakePendingKeepsTasks(s, c);
  }

  lemma TakePendingGood(s: State, c: ConversationId,
                   held: seq<Failure>, ahead: seq<Completion>)
    requires Good(s, Some(c), None, held, ahead) && c in s.pending && c !in s.active
    ensures Good(TakePending(s, c), None, Some(s.pending[c].id), held, ahead)
  {
    TakePendingPlaces(s, c);
    FateChanges(s, TakePending(s, c), s.pending[c].id, Arriving);
    SameGood(s, TakePending(s, c), Some(c), None, None, Some(s.pending[c].id), held, ahead);
  }

  lemma DisplacePlaces(s: State, c: ConversationId, newer: nat)
    requires Places(s, None) && c in s.pending
    requires newer == |s.ledger| - 1 && s.ledger[newer].fate == Arriving && s.ledger[newer].trigger.conversation == c
    ensures Places(Displace(s, c, newer), None)
  {
    DisplaceKeepsLedger(s, c, newer);
    DisplaceKeepsContainers(s, c, newer);
    DisplaceKeepsTasks(s, c, newer);
  }

  lemma DisplaceGood(s: State, c: ConversationId, newer: nat,
                   held: seq<Failure>, ahead: seq<Completion>)
    requires Good(s, None, Some(newer), held, ahead) && c in s.pending
    requires newer == |s.ledger| - 1 && s.ledger[newer].fate == Arriving && s.ledger[newer].trigger.conversation == c
    ensures Good(Displace(s, c, newer), None, Some(newer), held, ahead)
  {
    DisplacePlaces(s, c, newer);
    FateChanges(s, Displace(s, c, newer), s.pending[c].id, Replaced(newer));
    SameGood(s, Displace(s, c, newer), None, Some(newer), None, Some(newer), held, ahead);
  }

  lemma EnqueuePlaces(s: State, sub: Submission)
    requires Places(s, None)
    requires sub.id < |s.ledger| && s.ledger[sub.id].fate == Arriving && s.ledger[sub.id].trigger == sub.trigger
    requires sub.trigger.agentRunId.Some?
    requires var c := sub.trigger.conversation; c !in s.pending && c in s.active && IsClosed(s, s.active[c].task)
    ensures Places(Enqueue(s, sub), None)
  {
    EnqueueKeepsLedger(s, sub);
    EnqueueKeepsContainers(s, sub);
    EnqueueKeepsTasks(s, sub);
  }

  lemma EnqueueGood(s: State, sub: Submission,
                   held: seq<Failure>, ahead: seq<Completion>)
    requires Good(s, None, Some(sub.id), held, ahead)
    requires sub.id < |s.ledger| && s.ledger[sub.id].fate == Arriving && s.ledger[sub.id].trigger == sub.trigger
    requires sub.trigger.agentRunId.Some?
    requires var c := sub.trigger.conversation; c !in s.pending && c in s.active && IsClosed(s, s.active[c].task)
    ensures Good(Enqueue(s, sub), None, None, held, ahead)
  {
    EnqueuePlaces(s, sub);
    FateChanges(s, Enqueue(s, sub), sub.id, Waiting);
    SameGood(s, Enqueue(s, sub), None, Some(sub.id), None, None, held, ahead);
  }

  lemma RetirePlaces(s: State, c: ConversationId, newer: nat)
    requires Places(s, None) && c in s.active && !IsClosed(s, s.active[c].task)
    requires newer == |s.ledger| - 1 && s.ledger[newer].fate == Arriving && s.ledger[newer].trigger.conversation == c
    ensures Places(Retire(s, c, newer), None)
  {
    RetireKeepsLedger(s, c, newer);
    RetireKeepsContainers(s, c, newer);
    RetireKeepsTasks(s, c, newer);
  }

  lemma RetireGood(s: State, c: ConversationId, newer: nat,
                   held: seq<Failure>, ahead: seq<Completion>)
    requires Good(s, None, Some(newer), held, ahead) && c in s.active && !IsClosed(s, s.active[c].task)
    requires newer == |s.ledger| - 1 && s.ledger[newer].fate == Arriving && s.ledger[newer].trigger.conversation == c
    ensures Good(Retire(s, c, newer), None, Some(newer), held, ahead)
  {
    RetirePlaces(s, c, newer);
    FateChanges(s, Retire(s, c, newer), s.active[c].sub.id, Fate.Retired(s.active[c].task, newer));
    SameGood(s, Retire(s, c, newer), None, Some(newer), None, Some(newer), held, ahead);
  }

  lemma CollectActivePlaces(s: State, c: ConversationId)
    requires Places(s, None) && c in s.active && IsDone(s, s.active[c].task)
    ensures Places(CollectActive(s, c), Some(c))
  {
    CollectActiveKeepsLedger(s, c);
    CollectActiveKeepsContainers(s, c);
    CollectActiveKeepsTasks(s, c);
    QueueKeepsPlaces(MarkCollected(s.(active := s.active - {c}), s.active[c]), s.active[c], true, Some(c));
  }

  /** A turn that leaves its container ends, and nothing else about results changes. */
  lemma CollectTaskGood(s: State, s0: State, a: ActiveTurn, publish: bool, held: seq<Failure>, ahead: seq<Completion>)
    requires Results(s, held, ahead) && Settled(s, None) && Collectable(s, a, publish)
    requires s0.ledger == s.ledger && s0.tasks == s.tasks && s0.completed == s.completed && s0.failures == s.failures
    requires s0.collected == s.collected && s0.failed == s.failed
    ensures Results(CollectTaskResult(s0, a, publish), held, ahead) && Settled(CollectTaskResult(s0, a, publish), None)
  {
    SameKeeps(s, s0, held, ahead);
    CollectKeepsResults(s0, a, publish, held, ahead);
    CollectSettles(s0, a, publish);
  }

  lemma CollectSettles(s: State, a: ActiveTurn, publish: bool)
    requires Settled(s, None) && Collectable(s, a, publish)
    ensures Settled(CollectTaskResult(s, a, publish), None)
  {
  }

  lemma CollectActiveGood(s: State, c: ConversationId, held: seq<Failure>, ahead: seq<Completion>)
    requires Good(s, None, None, held, ahead) && c in s.active && IsDone(s, s.active[c].task)
    ensures Good(CollectActive(s, c), Some(c), None, held, ahead)
  {
    CollectActivePlaces(s, c);
    CollectTaskGood(s, s.(active := s.active - {c}), s.active[c], true, held, ahead);
  }

  /** The result queues take no part in places. */
  lemma QueueKeepsPlaces(s: State, a: ActiveTurn, publish: bool, hole: Option<ConversationId>)
    requires Places(s, hole) && IsDone(s, a.task)
    ensures Places(QueueResult(s, a, publish), hole)
    ensures QueueResult(s, a, publish).ledger == s.ledger
  {
    PlacesFrame(s, QueueResult(s, a, publish), hole);
  }

  lemma PlacesFrame(s: State, s': State, hole: Option<ConversationId>)
    requires Places(s, hole)
    requires s'.active == s.active && s'.pending == s.pending && s'.retired == s.retired && s'.tasks == s.tasks
             && s'.ledger == s.ledger
    ensures Places(s', hole)
  {
    forall n | 0 <= n < |s'.ledger| ensures FateTrue(s', n) {
      assert FateTrue(s, n);
    }
  }

  lemma ArrivePlaces(s: State, t: Trigger, parent: Option<nat>)
    requires Places(s, None)
    ensures Places(Arrive(s, t, parent), None)
  {
    ArriveKeepsLedger(s, t, parent);
    ArriveKeepsContainers(s, t, parent);
    ArriveKeepsTasks(s, t, parent);
  }

  lemma ArriveUnsettles(s: State, t: Trigger, parent: Option<nat>)
    requires Settled(s, None)
    ensures Settled(Arrive(s, t, parent), Some(|s.ledger|))
  {
  }

  lemma ArriveGood(s: State, t: Trigger, parent: Option<nat>, held: seq<Failure>, ahead: seq<Completion>)
    requires Good(s, None, None, held, ahead)
    requires parent.Some? ==> MayRetry(s, t, parent.value, held + s.failures)
    ensures Good(Arrive(s, t, parent), None, Some(|s.ledger|), held, ahead)
  {
    ArrivePlaces(s, t, parent);
    ArriveUnsettles(s, t, parent);
    ArriveKeepsResults(s, t, parent, held, ahead);
  }

  lemma CollectRetiredPlaces(s: State, k: nat)
    requires Places(s, None) && k < |s.retired| && IsDone(s, s.retired[k].turn.task)
    ensures Places(CollectRetired(s, k), None)
  {
    CollectRetiredKeepsLedger(s, k);
    CollectRetiredKeepsContainers(s, k);
    CollectRetiredKeepsTasks(s, k);
    var s1 := s.(retired := s.retired[..k] + s.retired[k + 1..]);
    QueueKeepsPlaces(MarkCollected(s1, s.retired[k].turn), s.retired[k].turn, false, None);
  }

  lemma CollectRetiredGood(s: State, k: nat, held: seq<Failure>, ahead: seq<Completion>)
    requires Good(s, None, None, held, ahead) && k < |s.retired| && IsDone(s, s.retired[k].turn.task)
    ensures Good(CollectRetired(s, k), None, None, held, ahead)
  {
    CollectRetiredPlaces(s, k);
    CollectTaskGood(s, s.(retired := s.retired[..k] + s.retired[k + 1..]), s.retired[k].turn, false, held, ahead);
  }

  lemma CancelsGood(s: State, held: seq<Failure>, ahead: seq<Completion>)
    requires Good(s, None, None, held, ahead)
    ensures Good(CollectDoneCancels(s), None, None, held, ahead)
  {
    PlacesFrame(s, CollectDoneCancels(s), None);
    CancelsKeepResults(s, held, ahead);
  }

  lemma TaskActsGood(s: State, i: nat, a: Action, held: seq<Failure>, ahead: seq<Completion>)
    requires Good(s, None, None, held, ahead) && i < |s.tasks|
    ensures Good(TaskActs(s, i, a), None, None, held, ahead)
  {
    TaskActsKeepsLedger(s, i, a);
    TaskActsKeepsContainers(s, i, a);
    TaskActsKeepsTasks(s, i, a);
    SameKeeps(s, TaskActs(s, i, a), held, ahead);
  }

  // ------------------------------------------------------------------------- methods

  lemma CollectCompletedGood(s: State, c: ConversationId, held: seq<Failure>, ahead: seq<Completion>)
    requires Good(s, None, None, held, ahead) && c in s.active && IsDone(s, s.active[c].task)
    ensures Good(CollectCompleted(s, c), None, None, held, ahead)
  {
    CollectActiveGood(s, c, held, ahead);
    StartPendingGood(CollectActive(s, c), c, held, ahead);
  }

  lemma StartPendingGood(s: State, c: ConversationId, held: seq<Failure>, ahead: seq<Completion>)
    requires Good(s, Some(c), None, held, ahead) && c !in s.active
    ensures Good(StartPendingIfAny(s, c), None, None, held, ahead)
  {
    if c in s.pending {
      TakePendingGood(s, c, held, ahead);
      StartWaitingGood(s, c, held, ahead);
    }
  }

  lemma StartWaitingGood(s: State, c: ConversationId, held: seq<Failure>, ahead: seq<Completion>)
    requires Good(s, Some(c), None, held, ahead) && c in s.pending && c !in s.active
    requires Good(TakePending(s, c), None, Some(s.pending[c].id), held, ahead)
    ensures Good(StartTrigger(TakePending(s, c), s.pending[c]), None, None, held, ahead)
  {
    StartGood(TakePending(s, c), s.pending[c], None, held, ahead);
  }

  lemma SubmitGood(s: State, t: Trigger, parent: Option<nat>, held: seq<Failure>, ahead: seq<Completion>)
    requires Good(s, None, None, held, ahead)
    requires parent.Some? ==> t.conversation !in s.active && MayRetry(s, t, parent.value, held + s.failures)
    ensures Good(Submit(s, t, parent), None, None, held, ahead)
  {
    var c := t.conversation;
    var s1 := if c in s.active && IsDone(s, s.active[c].task) then CollectCompleted(s, c) else s;
    if c in s.active && IsDone(s, s.active[c].task) {
      CollectCompletedGood(s, c, held, ahead);
    }
    ArriveGood(s1, t, parent, held, ahead);
    PlaceNewest(s1, t, parent, held, ahead);
  }

  /** `sub` has just arrived in `s`, and only it still lacks a place. */
  ghost predicate JustArrived(s: State, sub: Submission) {
    && sub.id == |s.ledger| - 1 && s.ledger[sub.id].fate == Arriving && s.ledger[sub.id].trigger == sub.trigger
    && sub.trigger.agentRunId.Some?
  }

  lemma PlaceNewest(s: State, t: Trigger, parent: Option<nat>, held: seq<Failure>, ahead: seq<Completion>)
    requires Good(Arrive(s, t, parent), None, Some(|s.ledger|), held, ahead)
    ensures var sub := Submission(|s.ledger|, WithRunId(t)); var c := t.conversation; var s2 := Arrive(s, t, parent);
            Good(if c in s2.active then
                   if IsClosed(s2, s2.active[c].task) then Wait(s2, sub) else StartTrigger(Retire(s2, c, sub.id), sub)
                 else StartTrigger(s2, sub), None, None, held, ahead)
  {
    var sub := Submission(|s.ledger|, WithRunId(t));
    var c := t.conversation;
    var s2 := Arrive(s, t, parent);
    assert JustArrived(s2, sub);
    if c in s2.active {
      if IsClosed(s2, s2.active[c].task) {
        WaitGood(s2, sub, held, ahead);
      } else {
        PlaceInstead(s2, sub, held, ahead);
      }
    } else {
      PlaceFresh(s2, sub, held, ahead);
    }
  }

  lemma WaitGood(s: State, sub: Submission, held: seq<Failure>, ahead: seq<Completion>)
    requires Good(s, None, Some(sub.id), held, ahead) && JustArrived(s, sub)
    requires var c := sub.trigger.conversation; c in s.active && IsClosed(s, s.active[c].task)
    ensures Good(Wait(s, sub), None, None, held, ahead)
  {
    var c := sub.trigger.conversation;
    if c in s.pending {
      DisplaceGood(s, c, sub.id, held, ahead);
      EnqueueDisplaced(s, sub, held, ahead);
    } else {
      EnqueueGood(s, sub, held, ahead);
    }
  }

  lemma EnqueueDisplaced(s: State, sub: Submission, held: seq<Failure>, ahead: seq<Completion>)
    requires JustArrived(s, sub) && PendingOk(s, None)
    requires var c := sub.trigger.conversation; c in s.active && IsClosed(s, s.active[c].task) && c in s.pending
    requires Good(Displace(s, sub.trigger.conversation, sub.id), None, Some(sub.id), held, ahead)
    ensures Good(Enqueue(Displace(s, sub.trigger.conversation, sub.id), sub), None, None, held, ahead)
  {
    EnqueueGood(Displace(s, sub.trigger.conversation, sub.id), sub, held, ahead);
  }

  lemma PlaceInstead(s: State, sub: Submission, held: seq<Failure>, ahead: seq<Completion>)
    requires Good(s, None, Some(sub.id), held, ahead) && JustArrived(s, sub)
    requires var c := sub.trigger.conversation; c in s.active && !IsClosed(s, s.active[c].task)
    ensures Good(StartTrigger(Retire(s, sub.trigger.conversation, sub.id), sub), None, None, held, ahead)
  {
    var c := sub.trigger.conversation;
    RetireGood(s, c, sub.id, held, ahead);
    StartRetired(s, sub, held, ahead);
  }

  lemma StartRetired(s: State, sub: Submission, held: seq<Failure>, ahead: seq<Completion>)
    requires JustArrived(s, sub) && ActiveOk(s) && PendingOk(s, None)
    requires var c := sub.trigger.conversation; c in s.active && !IsClosed(s, s.active[c].task)
    requires Good(Retire(s, sub.trigger.conversation, sub.id), None, Some(sub.id), held, ahead)
    ensures Good(StartTrigger(Retire(s, sub.trigger.conversation, sub.id), sub), None, None, held, ahead)
  {
    StartGood(Retire(s, sub.trigger.conversation, sub.id), sub, None, held, ahead);
  }

  lemma PlaceFresh(s: State, sub: Submission, held: seq<Failure>, ahead: seq<Completion>)
    requires Good(s, None, Some(sub.id), held, ahead) && JustArrived(s, sub)
    requires sub.trigger.conversation !in s.active
    ensures Good(StartTrigger(s, sub), None, None, held, ahead)
  {
    StartGood(s, sub, None, held, ahead);
  }

  lemma {:induction false} CollectDoneRetiredGood(s: State, k: nat, held: seq<Failure>, ahead: seq<Completion>)
    requires Good(s, None, None, held, ahead)
    ensures Good(CollectDoneRetired(s, k), None, None, held, ahead)
    decreases |s.retired| - k
  {
    if k < |s.retired| {
      if IsDone(s, s.retired[k].turn.task) {
        CollectRetiredGood(s, k, held, ahead);
        CollectDoneRetiredGood(CollectRetired(s, k), k, held, ahead);
      } else {
        CollectDoneRetiredGood(s, k + 1, held, ahead);
      }
    }
  }

  lemma {:induction false} CollectDoneActiveGood(s: State, order: seq<ConversationId>, held: seq<Failure>,
                                                 ahead: seq<Completion>)
    requires Good(s, None, None, held, ahead)
    ensures Good(CollectDoneActive(s, order), None, None, held, ahead)
  {
    if order != [] {
      CollectDoneActiveGood(s, order[..|order| - 1], held, ahead);
      var s' := CollectDoneActive(s, order[..|order| - 1]);
      var c := order[|order| - 1];
      if c in s'.active && IsDone(s', s'.active[c].task) {
        CollectCompletedGood(s', c, held, ahead);
      }
    }
  }

  lemma CollectAllGood(s: State, order: seq<ConversationId>, held: seq<Failure>, ahead: seq<Completion>)
    requires Good(s, None, None, held, ahead)
    ensures Good(CollectAll(s, order), None, None, held, ahead)
  {
    CollectDoneRetiredGood(s, 0, held, ahead);
    CancelsGood(CollectDoneRetired(s, 0), held, ahead);
    CollectDoneActiveGood(CollectDoneCancels(CollectDoneRetired(s, 0)), order, held, ahead);
  }

  /** What `drain_completed` hands over is exactly what comes next in publishing order. */
  lemma DrainCompletedGood(s: State, order: seq<ConversationId>, held: seq<Failure>, ahead: seq<Completion>)
    requires Good(s, None, None, held, ahead)
    ensures Good(DrainCompleted(s, order), None, None, held, ahead + CollectAll(s, order).completed)
  {
    CollectAllGood(s, order, held, ahead);
    var s1 := CollectAll(s, order);
    PlacesFrame(s1, DrainCompleted(s, order), None);
    CompletionsKept(s1, DrainCompleted(s, order));
    LinksKept(s1, DrainCompleted(s, order), held + s1.failures);
    FailuresKept(s1, DrainCompleted(s, order));
  }

  lemma DrainFailuresGood(s: State, order: seq<ConversationId>, ahead: seq<Completion>)
    requires Good(s, None, None, [], ahead)
    ensures Good(DrainFailures(s, order), None, None, CollectAll(s, order).failures, ahead)
  {
    CollectAllGood(s, order, [], ahead);
    var s1 := CollectAll(s, order);
    PlacesFrame(s1, DrainFailures(s, order), None);
    CompletionsKept(s1, DrainFailures(s, order));
    assert [] + s1.failures == s1.failures == s1.failures + [];
    LinksKept(s1, DrainFailures(s, order), s1.failures);
    FailuresKept(s1, DrainFailures(s, order));
  }

  /** Completions put back come before those queued since. */
  lemma RestoreGood(s: State, back: seq<Completion>, ahead: seq<Completion>)
    requires Good(s, None, None, [], ahead + back)
    ensures Good(RestoreCompleted(s, back), None, None, [], ahead)
  {
    var s' := RestoreCompleted(s, back);
    PlacesFrame(s, s', None);
    CompletionsKept(s, s');
    LinksKept(s, s', [] + s.failures);
    FailuresKept(s, s');
    assert ahead + (back + s.completed) == (ahead + back) + s.completed;
  }

  lemma BeforeIdleSubmitGood(s: State, c: ConversationId, held: seq<Failure>, ahead: seq<Completion>)
    requires Good(s, None, None, held, ahead)
    ensures Good(BeforeIdleSubmit(s, c), None, None, held, ahead)
  {
    CollectDoneRetiredGood(s, 0, held, ahead);
    CancelsGood(CollectDoneRetired(s, 0), held, ahead);
    var s1 := CollectDoneCancels(CollectDoneRetired(s, 0));
    if c in s1.active && IsDone(s1, s1.active[c].task) {
      CollectCompletedGood(s1, c, held, ahead);
    }
  }

  lemma CancelProviderRunsGood(s: State, runIds: seq<Option<RunId>>, trigger: Option<Trigger>, held: seq<Failure>,
                               ahead: seq<Completion>)
    requires Good(s, None, None, held, ahead)
    ensures Good(CancelProviderRuns(s, runIds, trigger), None, None, held, ahead)
  {
    CancelsGood(s, held, ahead);
    PlacesFrame(CollectDoneCancels(s), CancelProviderRuns(s, runIds, trigger), None);
    SameKeeps(CollectDoneCancels(s), CancelProviderRuns(s, runIds, trigger), held, ahead);
  }
}
