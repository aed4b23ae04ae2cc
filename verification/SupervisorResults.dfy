/**
  What every operation of the supervisor keeps about results: completions are queued exactly
  once and never for a superseded turn, failures are queued exactly once, and a failed
  submission is retried at most once.
*/
module SupervisorResults {
  import opened Options
  import opened TurnTask
  import opened Supervisor
  import opened SupervisorInvariant

  ghost predicate InCollected(s: State, n: nat) {
    exists k :: 0 <= k < |s.collected| && s.collected[k].sub.id == n
  }

  predicate CollectedFailed(s: State, n: nat) {
    n < |s.ledger| && s.ledger[n].fate.Collected? && s.ledger[n].fate.outcome == Failed
  }

  /** A turn that was not superseded and returned a value. */
  predicate CollectedValue(s: State, n: nat) {
    n < |s.ledger| && s.ledger[n].fate.Collected? && s.ledger[n].fate.superseded.None?
      && s.ledger[n].fate.outcome.Value?
  }

  /** These completions are of distinct turns that ended with that value and were not superseded. */
  ghost predicate OfValued(s: State, q: seq<Completion>) {
    && (forall k :: 0 <= k < |q| ==>
         && CollectedValue(s, q[k].sub.id)
         && s.ledger[q[k].sub.id].fate.outcome == Value(q[k].result)
           && s.ledger[q[k].sub.id].trigger == q[k].sub.trigger)
    && (forall j, k :: 0 <= j < k < |q| ==> q[j].sub.id != q[k].sub.id)
  }

  ghost predicate ValuesQueued(s: State) {
    forall n: nat :: CollectedValue(s, n) ==> InCollected(s, n)
  }

  /** The completions ever queued are those of the turns that ended with a value and were not
      superseded, one each. */
  ghost predicate CompletionsExact(s: State) { OfValued(s, s.collected) && ValuesQueued(s) }

  ghost predicate InFailed(s: State, n: nat) {
    exists k :: 0 <= k < |s.failed| && s.failed[k].TurnFailure? && s.failed[k].sub.id == n
  }

  /** The turn failures among these are of distinct turns that ended with an error. */
  ghost predicate OfFailed(s: State, q: seq<Failure>) {
    && (forall k :: 0 <= k < |q| && q[k].TurnFailure? ==>
         CollectedFailed(s, q[k].sub.id) && s.ledger[q[k].sub.id].trigger == q[k].sub.trigger)
    && (forall j, k :: 0 <= j < k < |q| && q[j].TurnFailure? && q[k].TurnFailure? ==> q[j].sub.id != q[k].sub.id)
  }

  ghost predicate FailedQueued(s: State) {
    forall n: nat :: CollectedFailed(s, n) ==> InFailed(s, n)
  }

  /** The turn failures ever queued are those of the turns that ended with an error, one each,
      superseded or not. */
  ghost predicate FailuresExact(s: State) { OfFailed(s, s.failed) && FailedQueued(s) }

  /** `q` are the last of `all`. */
  predicate Suffix(q: seq<Failure>, all: seq<Failure>) {
    |q| <= |all| && all[|all| - |q|..] == q
  }

  lemma SuffixAppend(q: seq<Failure>, all: seq<Failure>, more: seq<Failure>)
    requires Suffix(q, all)
    ensures Suffix(q + more, all + more)
  {
    assert (all + more)[|all| - |q|..] == all[|all| - |q|..] + more;
  }

  lemma SuffixTail(q: seq<Failure>, all: seq<Failure>)
    requires q != [] && Suffix(q, all)
    ensures Suffix(q[1..], all)
  {
    assert all[|all| - |q|..][1..] == all[|all| - |q| + 1..];
  }

  /** A retry names the failed submission it retries, and retries are numbered. */
  ghost predicate ParentsLinked(s: State) {
    forall n :: 0 <= n < |s.ledger| && s.ledger[n].parent.Some? ==>
      var p := s.ledger[n].parent.value;
      && p < n && s.ledger[p].child == Some(n)
      && s.ledger[p].trigger.mode.Interactive?
      && s.ledger[n].trigger == WithRunId(Again(s.ledger[p].trigger))
      && WorkerRetryCount(s.ledger[n].trigger) <= SUPERVISED_TURN_FAILURE_RETRY_LIMIT
  }

  /** A submission that names its retry has failed, and the retry names it. */
  ghost predicate ChildrenLinked(s: State) {
    forall p :: 0 <= p < |s.ledger| && s.ledger[p].child.Some? ==>
      var n := s.ledger[p].child.value;
      n < |s.ledger| && s.ledger[n].parent == Some(p) && CollectedFailed(s, p)
  }

  ghost predicate RetriesLinked(s: State) { ParentsLinked(s) && ChildrenLinked(s) }

  ghost predicate Unretried(s: State, q: seq<Failure>) {
    forall k :: 0 <= k < |q| && q[k].TurnFailure? && q[k].sub.id < |s.ledger| ==> s.ledger[q[k].sub.id].child.None?
  }

  /** These failures are of distinct failed submissions not yet retried. */
  ghost predicate FailuresFresh(s: State, q: seq<Failure>) { OfFailed(s, q) && Unretried(s, q) }

  /** `held` are the failures already taken out of `_failures`, `ahead` the completions already
      taken out of `_completed`. */
  ghost predicate Results(s: State, held: seq<Failure>, ahead: seq<Completion>) {
    && CompletionsExact(s) && FailuresExact(s) && RetriesLinked(s) && FailuresFresh(s, held + s.failures)
    && ahead + s.completed == s.collected && Suffix(held + s.failures, s.failed)
  }

  // ------------------------------------------------------------ what changes nothing

  /** The old ledger entries keep their triggers and links, and ends stay ends. */
  ghost predicate EndsKept(s: State, s': State) {
    && |s'.ledger| == |s.ledger|
    && (forall n :: 0 <= n < |s.ledger| ==>
         var e, e' := s.ledger[n], s'.ledger[n];
         && e'.trigger == e.trigger && e'.parent == e.parent && e'.child == e.child
         && (e.fate.Collected? ==> e'.fate == e.fate))
  }

  lemma OfValuedKept(s: State, s': State, q: seq<Completion>)
    requires OfValued(s, q) && EndsKept(s, s')
    ensures OfValued(s', q)
  {
  }

  lemma OfFailedKept(s: State, s': State, q: seq<Failure>)
    requires OfFailed(s, q) && EndsKept(s, s')
    ensures OfFailed(s', q)
  {
  }

  lemma LinksKept(s: State, s': State, q: seq<Failure>)
    requires EndsKept(s, s') && RetriesLinked(s) && FailuresFresh(s, q)
    ensures RetriesLinked(s') && FailuresFresh(s', q)
  {
    OfFailedKept(s, s', q);
  }

  lemma CompletionsKept(s: State, s': State)
    requires CompletionsExact(s) && EndsKept(s, s') && s'.collected == s.collected
    requires forall n: nat :: CollectedValue(s', n) ==> CollectedValue(s, n)
    ensures CompletionsExact(s')
  {
    OfValuedKept(s, s', s.collected);
    forall n: nat | CollectedValue(s', n) ensures InCollected(s', n) {
      assert InCollected(s, n);
    }
  }

  lemma FailuresKept(s: State, s': State)
    requires FailuresExact(s) && EndsKept(s, s') && s'.failed == s.failed
    requires forall n: nat :: CollectedFailed(s', n) ==> CollectedFailed(s, n)
    ensures FailuresExact(s')
  {
    OfFailedKept(s, s', s.failed);
    forall n: nat | CollectedFailed(s', n) ensures InFailed(s', n) {
      assert InFailed(s, n);
    }
  }

  /** Nothing about results changed: no new ends, no new links, the same queues. */
  ghost predicate SameResults(s: State, s': State) {
    && s'.completed == s.completed && s'.failures == s.failures && s'.collected == s.collected && s'.failed == s.failed
    && EndsKept(s, s')
    && (forall n :: 0 <= n < |s.ledger| && s'.ledger[n].fate.Collected? ==> s.ledger[n].fate.Collected?)
  }

  lemma SameKeeps(s: State, s': State, held: seq<Failure>, ahead: seq<Completion>)
    requires Results(s, held, ahead) && SameResults(s, s')
    ensures Results(s', held, ahead)
  {
    LinksKept(s, s', held + s.failures);
    CompletionsKept(s, s');
    FailuresKept(s, s');
  }

  // ------------------------------------------------------------- a new submission

  /** The failed submission `p` may still be retried by `t`, and no queued failure is its. */
  ghost predicate MayRetry(s: State, t: Trigger, p: nat, q: seq<Failure>) {
    && CollectedFailed(s, p) && s.ledger[p].child.None?
    && s.ledger[p].trigger.mode.Interactive? && t == Again(s.ledger[p].trigger)
    && WorkerRetryCount(t) <= SUPERVISED_TURN_FAILURE_RETRY_LIMIT
    && (forall k :: 0 <= k < |q| && q[k].TurnFailure? ==> q[k].sub.id != p)
  }

  lemma ArriveKeepsParents(s: State, t: Trigger, parent: Option<nat>, q: seq<Failure>)
    requires RetriesLinked(s) && (parent.Some? ==> MayRetry(s, t, parent.value, q))
    ensures ParentsLinked(Arrive(s, t, parent))
  {
    var s' := Arrive(s, t, parent);
    forall n | 0 <= n < |s.ledger|
      ensures parent != Some(n) ==> s'.ledger[n] == s.ledger[n]
      ensures s'.ledger[n].trigger == s.ledger[n].trigger && s'.ledger[n].parent == s.ledger[n].parent
    {
    }
  }

  lemma ArriveKeepsChildren(s: State, t: Trigger, parent: Option<nat>, q: seq<Failure>)
    requires RetriesLinked(s) && (parent.Some? ==> MayRetry(s, t, parent.value, q))
    ensures ChildrenLinked(Arrive(s, t, parent))
  {
  }

  lemma ArriveKeepsOfFailed(s: State, t: Trigger, parent: Option<nat>, q: seq<Failure>)
    requires OfFailed(s, q)
    ensures OfFailed(Arrive(s, t, parent), q)
  {
  }

  lemma ArriveKeepsFailures(s: State, t: Trigger, parent: Option<nat>, q: seq<Failure>)
    requires FailuresFresh(s, q)
    requires parent.Some? ==> MayRetry(s, t, parent.value, q)
    ensures FailuresFresh(Arrive(s, t, parent), q)
  {
    ArriveKeepsOfFailed(s, t, parent, q);
  }

  lemma ArriveKeepsCompletions(s: State, t: Trigger, parent: Option<nat>)
    requires CompletionsExact(s)
    ensures CompletionsExact(Arrive(s, t, parent))
  {
    var s' := Arrive(s, t, parent);
    forall n: nat | CollectedValue(s', n) ensures InCollected(s', n) {
      assert CollectedValue(s, n);
      assert InCollected(s, n);
    }
  }

  lemma ArriveKeepsFailuresExact(s: State, t: Trigger, parent: Option<nat>)
    requires FailuresExact(s)
    ensures FailuresExact(Arrive(s, t, parent))
  {
    ArriveKeepsOfFailed(s, t, parent, s.failed);
    var s' := Arrive(s, t, parent);
    forall n: nat | CollectedFailed(s', n) ensures InFailed(s', n) {
      assert CollectedFailed(s, n);
      assert InFailed(s, n);
    }
  }

  /** A new submission, retrying nothing or one failure that is in no queue. */
  lemma ArriveKeepsResults(s: State, t: Trigger, parent: Option<nat>, held: seq<Failure>, ahead: seq<Completion>)
    requires Results(s, held, ahead)
    requires parent.Some? ==> MayRetry(s, t, parent.value, held + s.failures)
    ensures Results(Arrive(s, t, parent), held, ahead)
  {
    ArriveKeepsParents(s, t, parent, held + s.failures);
    ArriveKeepsChildren(s, t, parent, held + s.failures);
    ArriveKeepsFailures(s, t, parent, held + s.failures);
    ArriveKeepsCompletions(s, t, parent);
    ArriveKeepsFailuresExact(s, t, parent);
  }

  // --------------------------------------------------------------- longer queues

  lemma OfValuedAppend(s: State, q: seq<Completion>, done: Completion)
    requires OfValued(s, q)
    requires CollectedValue(s, done.sub.id) && s.ledger[done.sub.id].fate.outcome == Value(done.result)
    requires s.ledger[done.sub.id].trigger == done.sub.trigger
    requires forall k :: 0 <= k < |q| ==> q[k].sub.id != done.sub.id
    ensures OfValued(s, q + [done])
  {
    var q' := q + [done];
    assert forall k :: 0 <= k < |q| ==> q'[k] == q[k];
    assert q'[|q|] == done;
  }

  /** One more failure, of a failed submission that no failure in the queue names. */
  lemma OfFailedAppend(s: State, q: seq<Failure>, f: Failure)
    requires OfFailed(s, q) && f.TurnFailure?
    requires CollectedFailed(s, f.sub.id) && s.ledger[f.sub.id].trigger == f.sub.trigger
    requires forall k :: 0 <= k < |q| && q[k].TurnFailure? ==> q[k].sub.id != f.sub.id
    ensures OfFailed(s, q + [f])
  {
    var q' := q + [f];
    assert forall k :: 0 <= k < |q| ==> q'[k] == q[k];
    assert q'[|q|] == f;
  }

  lemma UnretriedAppend(s: State, q: seq<Failure>, f: Failure)
    requires Unretried(s, q) && f.TurnFailure? && f.sub.id < |s.ledger| && s.ledger[f.sub.id].child.None?
    ensures Unretried(s, q + [f])
  {
    var q' := q + [f];
    assert forall k :: 0 <= k < |q| ==> q'[k] == q[k];
    assert q'[|q|] == f;
  }

  /** Provider failures name no turn. */
  lemma FreshAppendAll(s: State, q: seq<Failure>, more: seq<Failure>)
    requires forall k :: 0 <= k < |more| ==> more[k].ProviderFailure?
    ensures OfFailed(s, q) ==> OfFailed(s, q + more)
    ensures Unretried(s, q) ==> Unretried(s, q + more)
  {
    assert forall k :: 0 <= k < |q| ==> (q + more)[k] == q[k];
    assert forall k :: |q| <= k < |q + more| ==> (q + more)[k] == more[k - |q|];
  }

  /** Taking the first failure off the queue. */
  lemma FreshTail(s: State, q: seq<Failure>, more: seq<Failure>)
    requires q != [] && FailuresFresh(s, q + more)
    ensures FailuresFresh(s, q[1..] + more)
    ensures q[0].TurnFailure? ==>
              forall k :: 0 <= k < |q[1..] + more| && (q[1..] + more)[k].TurnFailure? ==>
                     (q[1..] + more)[k].sub.id != q[0].sub.id
  {
    var all, rest := q + more, q[1..] + more;
    assert forall k :: 0 <= k < |rest| ==> rest[k] == all[k + 1];
    assert all[0] == q[0];
  }

  // ------------------------------------------------------------------ a turn ends

  /** An active turn that may publish, or a retired one that may not. */
  predicate Collectable(s: State, a: ActiveTurn, publish: bool) {
    && IsDone(s, a.task) && a.sub.id < |s.ledger| && s.ledger[a.sub.id].trigger == a.sub.trigger
    && (if publish then s.ledger[a.sub.id].fate.Active? else s.ledger[a.sub.id].fate.Retired?)
  }

  lemma EndsKeptCollecting(s: State, a: ActiveTurn, publish: bool)
    requires Collectable(s, a, publish)
    ensures EndsKept(s, CollectTaskResult(s, a, publish))
  {
  }

  lemma CollectKeepsOfValued(s: State, a: ActiveTurn, publish: bool)
    requires OfValued(s, s.collected) && Collectable(s, a, publish)
    ensures var s' := CollectTaskResult(s, a, publish); OfValued(s', s'.collected)
  {
    var s' := CollectTaskResult(s, a, publish);
    EndsKeptCollecting(s, a, publish);
    OfValuedKept(s, s', s.collected);
    if s'.collected != s.collected {
      OfValuedAppend(s', s.collected, Completion(a.sub, s.tasks[a.task].outcome.value.result));
    }
  }

  lemma CollectKeepsValuesQueued(s: State, a: ActiveTurn, publish: bool)
    requires ValuesQueued(s) && Collectable(s, a, publish)
    ensures ValuesQueued(CollectTaskResult(s, a, publish))
  {
    var s' := CollectTaskResult(s, a, publish);
    forall n: nat | CollectedValue(s', n) ensures InCollected(s', n) {
      if n == a.sub.id {
        assert s'.collected[|s.collected|].sub.id == n;
      } else {
        assert CollectedValue(s, n);
        var k :| 0 <= k < |s.collected| && s.collected[k].sub.id == n;
        assert s'.collected[k].sub.id == n;
      }
    }
  }

  lemma CollectKeepsOfFailed(s: State, a: ActiveTurn, publish: bool, q: seq<Failure>)
    requires OfFailed(s, q) && Collectable(s, a, publish)
    ensures var s' := CollectTaskResult(s, a, publish);
            && OfFailed(s', q)
            && (s.tasks[a.task].outcome.value.Failed? ==> OfFailed(s', q + [TurnFailure(a.sub)]))
  {
    var s' := CollectTaskResult(s, a, publish);
    EndsKeptCollecting(s, a, publish);
    OfFailedKept(s, s', q);
    if s.tasks[a.task].outcome.value.Failed? {
      OfFailedAppend(s', q, TurnFailure(a.sub));
    }
  }

  lemma CollectKeepsFailedQueued(s: State, a: ActiveTurn, publish: bool)
    requires FailedQueued(s) && Collectable(s, a, publish)
    ensures FailedQueued(CollectTaskResult(s, a, publish))
  {
    var s' := CollectTaskResult(s, a, publish);
    forall n: nat | CollectedFailed(s', n) ensures InFailed(s', n) {
      if n == a.sub.id {
        assert s'.failed[|s.failed|].sub.id == n;
      } else {
        assert CollectedFailed(s, n);
        var k :| 0 <= k < |s.failed| && s.failed[k].TurnFailure? && s.failed[k].sub.id == n;
        assert s'.failed[k].sub.id == n;
      }
    }
  }

  lemma CollectKeepsLinks(s: State, a: ActiveTurn, publish: bool, held: seq<Failure>)
    requires RetriesLinked(s) && FailuresFresh(s, held + s.failures) && Collectable(s, a, publish)
    ensures var s' := CollectTaskResult(s, a, publish); RetriesLinked(s') && Unretried(s', held + s'.failures)
  {
    var s' := CollectTaskResult(s, a, publish);
    EndsKeptCollecting(s, a, publish);
    LinksKept(s, s', held + s.failures);
    assert s.ledger[a.sub.id].child.None?;
    if s.tasks[a.task].outcome.value.Failed? {
      UnretriedAppend(s', held + s.failures, TurnFailure(a.sub));
      assert held + s'.failures == held + s.failures + [TurnFailure(a.sub)];
    }
  }

  /** What the queues of failures and completions are after a result was taken. */
  lemma CollectedQueues(s: State, a: ActiveTurn, publish: bool, held: seq<Failure>, ahead: seq<Completion>)
    requires IsDone(s, a.task) && Suffix(held + s.failures, s.failed) && ahead + s.completed == s.collected
    ensures var s' := CollectTaskResult(s, a, publish);
            && Suffix(held + s'.failures, s'.failed) && ahead + s'.completed == s'.collected
            && (if s.tasks[a.task].outcome.value.Failed?
                then s'.failed == s.failed + [TurnFailure(a.sub)]
                  && held + s'.failures == held + s.failures + [TurnFailure(a.sub)]
                else s'.failed == s.failed && s'.failures == s.failures)
  {
    var s' := CollectTaskResult(s, a, publish);
    if s.tasks[a.task].outcome.value.Failed? {
      SuffixAppend(held + s.failures, s.failed, [TurnFailure(a.sub)]);
      assert held + s'.failures == held + s.failures + [TurnFailure(a.sub)];
    } else if s'.completed != s.completed {
      var done := s'.completed[|s.completed|];
      assert ahead + (s.completed + [done]) == (ahead + s.completed) + [done];
    }
  }

  /** A task result is taken: its submission ended only now, so its result is new to the queues. */
  lemma CollectKeepsResults(s: State, a: ActiveTurn, publish: bool, held: seq<Failure>, ahead: seq<Completion>)
    requires Results(s, held, ahead) && Collectable(s, a, publish)
    ensures Results(CollectTaskResult(s, a, publish), held, ahead)
  {
    CollectKeepsOfValued(s, a, publish);
    CollectKeepsValuesQueued(s, a, publish);
    CollectKeepsOfFailed(s, a, publish, s.failed);
    CollectKeepsOfFailed(s, a, publish, held + s.failures);
    CollectKeepsFailedQueued(s, a, publish);
    CollectKeepsLinks(s, a, publish, held);
    CollectedQueues(s, a, publish, held, ahead);
  }

  // ------------------------------------------------------- ended provider cancels

  lemma BrokenKeepFailuresExact(s: State)
    requires FailuresExact(s)
    ensures FailuresExact(CollectDoneCancels(s))
  {
    var s' := CollectDoneCancels(s);
    FreshAppendAll(s, s.failed, BrokenCancels(s.cancels));
    OfFailedKept(s, s', s'.failed);
    forall n: nat | CollectedFailed(s', n) ensures InFailed(s', n) {
      assert InFailed(s, n);
      var k :| 0 <= k < |s.failed| && s.failed[k].TurnFailure? && s.failed[k].sub.id == n;
      assert s'.failed[k] == s.failed[k];
    }
  }

  /** Ended provider cancels add only failures that are never retried. */
  lemma CancelsKeepResults(s: State, held: seq<Failure>, ahead: seq<Completion>)
    requires Results(s, held, ahead)
    ensures Results(CollectDoneCancels(s), held, ahead)
  {
    var s' := CollectDoneCancels(s);
    FreshAppendAll(s, held + s.failures, BrokenCancels(s.cancels));
    assert held + s'.failures == held + s.failures + BrokenCancels(s.cancels);
    LinksKept(s, s', held + s'.failures);
    CompletionsKept(s, s');
    SuffixAppend(held + s.failures, s.failed, BrokenCancels(s.cancels));
    BrokenKeepFailuresExact(s);
  }
}
