/** The worker's drain of the supervisor, with tasks moving on between its calls (coke/worker/__main__.py). */
module WorkerDrain {
  import opened Options
  import opened TurnTask
  import opened Supervisor
  import opened SupervisorMethods
  import opened SupervisorInvariant
  import opened SupervisorResults
  import opened SupervisorRuns
  import opened SupervisorHistory
  import opened SupervisorRetries
  import opened InteractiveTurnSupervisors
  import S = Supervisor

  /** What the event loop does while a drain is under way: between the two drains, before each
      failure is looked at, and while replies are published. */
  datatype Gaps = Gaps(early: seq<Move>, beforeFailure: nat -> seq<Move>, late: seq<Move>)

  /** The loop of `_drain_supervisor_failures` from failure `k` on. */
  function RetryAll(s: State, failures: seq<Failure>, k: nat, gaps: Gaps): State
    requires k <= |failures|
    decreases |failures| - k
  {
    if k == |failures| then s
    else RetryAll(Retry(Moved(s, gaps.beforeFailure(k)), failures[k]), failures, k + 1, gaps)
  }

  /** The state when the failures have been dealt with and publishing may begin. */
  function AfterFailures(s: State, order: seq<ConversationId>, later: seq<ConversationId>, gaps: Gaps): State {
    var s1 := Moved(S.DrainCompleted(s, order), gaps.early);
    RetryAll(S.DrainFailures(s1, later), CollectAll(s1, later).failures, 0, gaps)
  }

  lemma {:induction false} MovedGood(s: State, moves: seq<Move>, held: seq<Failure>, ahead: seq<Completion>)
    requires Good(s, None, None, held, ahead)
    ensures Good(Moved(s, moves), None, None, held, ahead)
  {
    if moves != [] {
      var before := Moved(s, moves[..|moves| - 1]);
      MovedGood(s, moves[..|moves| - 1], held, ahead);
      match moves[|moves| - 1]
      case TaskMoves(i, a) => if i < |before.tasks| { TaskActsGood(before, i, a, held, ahead); }
      case CancelMoves(k, status) => if k < |before.cancels| { CancelEndsGood(before, k, status, held, ahead); }
    }
  }

  lemma {:induction false} RetryAllGood(s: State, failures: seq<Failure>, k: nat, gaps: Gaps, ahead: seq<Completion>)
    requires k <= |failures| && Good(s, None, None, failures[k..], ahead)
    ensures Good(RetryAll(s, failures, k, gaps), None, None, [], ahead)
    decreases |failures| - k
  {
    if k < |failures| {
      assert failures[k..][0] == failures[k] && failures[k..][1..] == failures[k + 1..];
      MovedGood(s, gaps.beforeFailure(k), failures[k..], ahead);
      RetryGood(Moved(s, gaps.beforeFailure(k)), failures[k..], ahead);
      RetryAllGood(Retry(Moved(s, gaps.beforeFailure(k)), failures[k]), failures, k + 1, gaps, ahead);
    }
  }

  // --------------------------------------------- every drained failure gets its chance

  /** What a failure finds when its turn comes: the earlier failures have been dealt with, and the
      tasks have moved on. */
  function WhenLookedAt(s: State, failures: seq<Failure>, k: nat, gaps: Gaps): State
    requires k < |failures|
  {
    Moved(RetryAll(s, failures[..k], 0, gaps), gaps.beforeFailure(k))
  }

  lemma {:induction false} OneMoreFailure(s: State, failures: seq<Failure>, k: nat, n: nat, gaps: Gaps)
    requires k <= n < |failures|
    ensures RetryAll(s, failures[..n + 1], k, gaps)
            == Retry(Moved(RetryAll(s, failures[..n], k, gaps), gaps.beforeFailure(n)), failures[n])
    decreases n - k
  {
    if k < n {
      OneMoreFailure(Retry(Moved(s, gaps.beforeFailure(k)), failures[k]), failures, k + 1, n, gaps);
    }
  }

  /** Some submission retries submission `n`. */
  ghost predicate Retried(s: State, n: nat) {
    exists m :: 0 <= m < |s.ledger| && s.ledger[m].parent == Some(n)
  }

  lemma {:induction false} MovedLedger(s: State, moves: seq<Move>)
    ensures Moved(s, moves).ledger == s.ledger
  {
    if moves != [] {
      MovedLedger(s, moves[..|moves| - 1]);
    }
  }

  lemma SameLedgerRetried(s: State, s': State, n: nat)
    requires s'.ledger == s.ledger
    ensures Retried(s', n) <==> Retried(s, n)
  {
  }

  lemma GrownLedgerRetried(s: State, s': State, f: Failure, n: nat)
    requires LedgerGrows(s, s')
    requires if MayStartAgain(s, f) then StartsAgain(s, s', f.sub.id) else |s'.ledger| == |s.ledger|
    ensures Retried(s', n) <==> Retried(s, n) || (MayStartAgain(s, f) && f.sub.id == n)
  {
    if Retried(s, n) {
      var m :| 0 <= m < |s.ledger| && s.ledger[m].parent == Some(n);
      assert s'.ledger[m].parent == Some(n);
    }
    if Retried(s', n) {
      var m :| 0 <= m < |s'.ledger| && s'.ledger[m].parent == Some(n);
      assert m < |s.ledger| ==> s.ledger[m].parent == Some(n);
    }
  }

  /** A failure that is looked at is retried exactly if it may be; the others are left alone. */
  lemma LookedAt(s: State, q: seq<Failure>, ahead: seq<Completion>, n: nat)
    requires q != [] && Good(s, None, None, q, ahead)
    ensures Retried(Retry(s, q[0]), n) <==> Retried(s, n) || (MayStartAgain(s, q[0]) && q[0].sub.id == n)
  {
    assert (q + s.failures)[0] == q[0];
    RetryStarts(s, q[0]);
    RetryQuiet(s, q[0]);
    GrownLedgerRetried(s, Retry(s, q[0]), q[0], n);
  }

  lemma NotYetRetried(s: State, q: seq<Failure>, ahead: seq<Completion>, k: nat)
    requires k < |q| && q[k].TurnFailure? && Good(s, None, None, q, ahead)
    ensures !Retried(s, q[k].sub.id)
  {
    assert (q + s.failures)[k] == q[k];
  }

  lemma DistinctFailures(s: State, q: seq<Failure>, ahead: seq<Completion>, j: nat, k: nat)
    requires j < k < |q| && q[j].TurnFailure? && q[k].TurnFailure? && Good(s, None, None, q, ahead)
    ensures q[j].sub.id != q[k].sub.id
  {
    assert (q + s.failures)[j] == q[j] && (q + s.failures)[k] == q[k];
  }

  lemma {:induction false} SomeFailuresGood(s: State, failures: seq<Failure>, n: nat, gaps: Gaps,
                                            ahead: seq<Completion>)
    requires n <= |failures| && Good(s, None, None, failures, ahead)
    ensures Good(RetryAll(s, failures[..n], 0, gaps), None, None, failures[n..], ahead)
    decreases n
  {
    if n == 0 {
      assert failures[0..] == failures;
    } else {
      var before := RetryAll(s, failures[..n - 1], 0, gaps);
      SomeFailuresGood(s, failures, n - 1, gaps, ahead);
      MovedGood(before, gaps.beforeFailure(n - 1), failures[n - 1..], ahead);
      RetryGood(Moved(before, gaps.beforeFailure(n - 1)), failures[n - 1..], ahead);
      assert failures[n - 1..][1..] == failures[n..];
      OneMoreFailure(s, failures, 0, n - 1, gaps);
    }
  }

  /** One round: the failures looked at before keep their answer. */
  lemma OneRound(s: State, failures: seq<Failure>, n: nat, gaps: Gaps, ahead: seq<Completion>, id: nat)
    requires n < |failures| && Good(s, None, None, failures, ahead)
    ensures Retried(RetryAll(s, failures[..n + 1], 0, gaps), id) <==>
            || Retried(RetryAll(s, failures[..n], 0, gaps), id)
            || (MayStartAgain(WhenLookedAt(s, failures, n, gaps), failures[n]) && failures[n].sub.id == id)
  {
    var before := RetryAll(s, failures[..n], 0, gaps);
    SomeFailuresGood(s, failures, n, gaps, ahead);
    MovedGood(before, gaps.beforeFailure(n), failures[n..], ahead);
    LookedAt(Moved(before, gaps.beforeFailure(n)), failures[n..], ahead, id);
    MovedLedger(before, gaps.beforeFailure(n));
    SameLedgerRetried(before, Moved(before, gaps.beforeFailure(n)), id);
    OneMoreFailure(s, failures, 0, n, gaps);
  }

  lemma OwnRound(s: State, failures: seq<Failure>, k: nat, gaps: Gaps, ahead: seq<Completion>)
    requires k < |failures| && failures[k].TurnFailure? && Good(s, None, None, failures, ahead)
    ensures Retried(RetryAll(s, failures[..k + 1], 0, gaps), failures[k].sub.id)
            <==> MayStartAgain(WhenLookedAt(s, failures, k, gaps), failures[k])
  {
    OneRound(s, failures, k, gaps, ahead, failures[k].sub.id);
    SomeFailuresGood(s, failures, k, gaps, ahead);
    NotYetRetried(RetryAll(s, failures[..k], 0, gaps), failures[k..], ahead, 0);
  }

  lemma LaterRound(s: State, failures: seq<Failure>, k: nat, n: nat, gaps: Gaps, ahead: seq<Completion>)
    requires k < n < |failures| && failures[k].TurnFailure? && Good(s, None, None, failures, ahead)
    ensures Retried(RetryAll(s, failures[..n + 1], 0, gaps), failures[k].sub.id)
            <==> Retried(RetryAll(s, failures[..n], 0, gaps), failures[k].sub.id)
  {
    OneRound(s, failures, n, gaps, ahead, failures[k].sub.id);
    if failures[n].TurnFailure? {
      DistinctFailures(s, failures, ahead, k, n);
    }
  }

  lemma {:induction false} RetriedSoFar(s: State, failures: seq<Failure>, k: nat, n: nat, gaps: Gaps,
                                        ahead: seq<Completion>)
    requires k <= n < |failures| && failures[k].TurnFailure? && Good(s, None, None, failures, ahead)
    ensures Retried(RetryAll(s, failures[..n + 1], 0, gaps), failures[k].sub.id)
            <==> MayStartAgain(WhenLookedAt(s, failures, k, gaps), failures[k])
    decreases n
  {
    if k == n {
      OwnRound(s, failures, k, gaps, ahead);
    } else {
      RetriedSoFar(s, failures, k, n - 1, gaps, ahead);
      LaterRound(s, failures, k, n, gaps, ahead);
    }
  }

  /** Every drained failure is looked at: when the loop is over it has been started again exactly
      if that was allowed at the moment its turn came. */
  lemma EveryFailureGetsItsChance(s: State, failures: seq<Failure>, k: nat, gaps: Gaps, ahead: seq<Completion>)
    requires k < |failures| && failures[k].TurnFailure? && Good(s, None, None, failures, ahead)
    ensures Retried(RetryAll(s, failures, 0, gaps), failures[k].sub.id)
            <==> MayStartAgain(WhenLookedAt(s, failures, k, gaps), failures[k])
  {
    RetriedSoFar(s, failures, k, |failures| - 1, gaps, ahead);
    assert failures[..|failures|] == failures;
  }

  // ------------------------------------------------------------------ the whole drain

  lemma AfterFailuresGood(s: State, order: seq<ConversationId>, later: seq<ConversationId>, gaps: Gaps,
                          published: seq<Completion>)
    requires Good(s, None, None, [], published)
    ensures Good(AfterFailures(s, order, later, gaps), None, None, [], published + CollectAll(s, order).completed)
  {
    var ahead := published + CollectAll(s, order).completed;
    DrainCompletedGood(s, order, [], published);
    MovedGood(S.DrainCompleted(s, order), gaps.early, [], ahead);
    var s1 := Moved(S.DrainCompleted(s, order), gaps.early);
    DrainFailuresGood(s1, later, ahead);
    var failures := CollectAll(s1, later).failures;
    assert failures[0..] == failures;
    RetryAllGood(S.DrainFailures(s1, later), failures, 0, gaps, ahead);
  }

  /** The state after a drain of which the first `k` completions were published. */
  function AfterDrain(s: State, order: seq<ConversationId>, later: seq<ConversationId>, gaps: Gaps, k: nat): State
    requires k <= |CollectAll(s, order).completed|
  {
    S.RestoreCompleted(Moved(AfterFailures(s, order, later, gaps), gaps.late), CollectAll(s, order).completed[k..])
  }

  /** However many of the drained completions were published before something raised, and whatever
      the tasks did meanwhile, the publish log stays exact: what was published, then `_completed`,
      is all that was ever queued. */
  lemma DrainKeepsPublishLog(s: State, order: seq<ConversationId>, later: seq<ConversationId>, gaps: Gaps,
                             published: seq<Completion>, k: nat)
    requires Good(s, None, None, [], published) && k <= |CollectAll(s, order).completed|
    ensures Good(AfterDrain(s, order, later, gaps, k), None, None, [], published + CollectAll(s, order).completed[..k])
  {
    var drained := CollectAll(s, order).completed;
    AfterFailuresGood(s, order, later, gaps, published);
    MovedGood(AfterFailures(s, order, later, gaps), gaps.late, [], published + drained);
    RestGoesBack(Moved(AfterFailures(s, order, later, gaps), gaps.late), drained, published, k);
  }

  lemma RestGoesBack(s: State, drained: seq<Completion>, published: seq<Completion>, k: nat)
    requires k <= |drained| && Good(s, None, None, [], published + drained)
    ensures Good(S.RestoreCompleted(s, drained[k..]), None, None, [], published + drained[..k])
  {
    assert (published + drained[..k]) + drained[k..] == published + drained;
    RestoreGood(s, drained[k..], published + drained[..k]);
  }

  /** How many of `n` completions go out: the commit or the publish at `publishFailsAt` may raise. */
  function Sent(n: nat, commitFails: bool, publishFailsAt: nat): nat {
    if commitFails then 0 else if publishFailsAt < n then publishFailsAt else n
  }

  class Worker {
    const supervisor: InteractiveTurnSupervisor
    var published: seq<Completion>   // the replies sent so far

    constructor (supervisor: InteractiveTurnSupervisor)
      ensures this.supervisor == supervisor && published == []
    {
      this.supervisor := supervisor;
      published := [];
    }

    method DrainSupervisorFailures(order: seq<ConversationId>, gaps: Gaps)
      requires Walks(supervisor.Value(), order) && PendingKeyed(supervisor.Value())
      modifies supervisor
      ensures var s := old(supervisor.Value());
              supervisor.Value() == RetryAll(S.DrainFailures(s, order), CollectAll(s, order).failures, 0, gaps)
    {
      var failures := supervisor.DrainFailures(order);
      ghost var before := supervisor.Value();
      for i := 0 to |failures|
        invariant RetryAll(before, failures, 0, gaps) == RetryAll(supervisor.Value(), failures, i, gaps)
      {
        supervisor.LetRun(gaps.beforeFailure(i));
        var trigger := RetryTrigger(failures[i]);
        if trigger.Some? {
          var _ := supervisor.SubmitIfIdle(trigger.value, Some(failures[i].sub.id));
        }
      }
    }

    /** The commit and the publishing loop. */
    method PublishAll(completed: seq<Completion>, commitFails: bool, publishFailsAt: nat)
      returns (remaining: seq<Completion>)
      modifies this
      ensures published == old(published) + completed[..Sent(|completed|, commitFails, publishFailsAt)]
      ensures remaining == completed[Sent(|completed|, commitFails, publishFailsAt)..]
    {
      remaining := completed;
      if commitFails {
        return;
      }
      for i := 0 to |completed|
        invariant remaining == completed[i..] && published == old(published) + completed[..i]
        invariant i <= publishFailsAt
      {
        if i == publishFailsAt {
          return;
        }
        published := published + [completed[i]];
        remaining := remaining[1..];
      }
    }

    /** Replies go out in order, each once, and those that do not go out are first in line again. */
    method DrainSupervisorCompletions(order: seq<ConversationId>, later: seq<ConversationId>, gaps: Gaps,
                                      commitFails: bool, publishFailsAt: nat)
      returns (raised: bool)
      requires Walks(supervisor.Value(), order) && PendingKeyed(supervisor.Value())
      requires Walks(S.DrainCompleted(supervisor.Value(), order), later)
      modifies this, supervisor
      ensures var s := old(supervisor.Value());
              var drained := CollectAll(s, order).completed;
              var sent := if commitFails then 0 else if publishFailsAt < |drained| then publishFailsAt else |drained|;
              && (raised <==> sent < |drained|)
              && published == old(published) + drained[..sent]
              && supervisor.Value() == AfterDrain(s, order, later, gaps, sent)
    {
      var completed := supervisor.DrainCompleted(order);
      supervisor.LetRun(gaps.early);
      DrainSupervisorFailures(later, gaps);
      if completed == [] {
        supervisor.LetRun(gaps.late);
        return false;
      }
      var remaining := PublishAll(completed, commitFails, publishFailsAt);
      supervisor.LetRun(gaps.late);
      raised := remaining != [];
      if raised {
        supervisor.RestoreCompleted(remaining);
      }
    }
  }
}
