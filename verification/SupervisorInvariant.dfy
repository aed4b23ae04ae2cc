/**
  What every operation of the supervisor keeps: each accepted submission has exactly one place,
  places and ledger agree, and a waiting submission stands behind a committed turn.
*/
module SupervisorInvariant {
  import opened Options
  import opened TurnTask
  import opened Supervisor

  const SUPERVISED_TURN_FAILURE_RETRY_LIMIT := 1

  /** `_worker_retry_count` */
  function WorkerRetryCount(t: Trigger): nat {
    if t.retryCount.Some? && t.retryCount.value > 0 then t.retryCount.value else 0
  }

  /** The trigger that retries `t`: the same, with its count one higher. */
  function Again(t: Trigger): Trigger { t.(retryCount := Some(WorkerRetryCount(t) + 1)) }

  predicate LaterSame(s: State, n: nat, newer: nat) {
    n < newer < |s.ledger| && s.ledger[newer].trigger.conversation == s.ledger[n].trigger.conversation
  }

  ghost predicate InRetired(s: State, n: nat) {
    exists k :: 0 <= k < |s.retired| && s.retired[k].turn.sub.id == n
  }

  /** The ledger's word about submission `n` is true. */
  ghost predicate FateTrue(s: State, n: nat)
    requires n < |s.ledger|
  {
    var c := s.ledger[n].trigger.conversation;
    match s.ledger[n].fate
    case Arriving => true
    case Active(t) => c in s.active && s.active[c].sub.id == n && s.active[c].task == t
    case Waiting => c in s.pending && s.pending[c].id == n
    case Retired(t, newer) => LaterSame(s, n, newer) && InRetired(s, n)
    case Replaced(newer) => LaterSame(s, n, newer)
    case Collected(t, superseded, o) =>
      && t < |s.tasks| && s.tasks[t].sub == n && s.tasks[t].outcome == Some(o)
      && (superseded.Some? ==> LaterSame(s, n, superseded.value))
      && (superseded.Some? <==> s.tasks[t].cancelRequested)
  }

  ghost predicate LedgerTrue(s: State) {
    forall n :: 0 <= n < |s.ledger| ==> FateTrue(s, n)
  }

  ghost predicate ActiveOk(s: State) {
    forall c :: c in s.active ==>
      var a := s.active[c];
      && a.sub.id < |s.ledger| && s.ledger[a.sub.id].fate == Active(a.task)
      && s.ledger[a.sub.id].trigger == a.sub.trigger && a.sub.trigger.conversation == c
      && a.task < |s.tasks| && s.tasks[a.task].sub == a.sub.id && !s.tasks[a.task].cancelRequested
  }

  /** `hole` is the conversation whose active turn was just collected, if any. */
  ghost predicate PendingOk(s: State, hole: Option<ConversationId>) {
    forall c :: c in s.pending ==>
      var sub := s.pending[c];
      && sub.id < |s.ledger| && s.ledger[sub.id].fate == Waiting
      && s.ledger[sub.id].trigger == sub.trigger && sub.trigger.conversation == c && sub.trigger.agentRunId.Some?
      && (hole == Some(c) || (c in s.active && IsClosed(s, s.active[c].task)))
  }

  ghost predicate RetiredOk(s: State) {
    && (forall k :: 0 <= k < |s.retired| ==>
         var a := s.retired[k].turn;
         && !s.retired[k].publishCompletion
         && a.sub.id < |s.ledger| && s.ledger[a.sub.id].fate.Retired? && s.ledger[a.sub.id].fate.task == a.task
         && s.ledger[a.sub.id].trigger == a.sub.trigger
         && a.task < |s.tasks| && s.tasks[a.task].sub == a.sub.id && s.tasks[a.task].cancelRequested)
    && (forall j, k :: 0 <= j < k < |s.retired| ==> s.retired[j].turn.sub.id != s.retired[k].turn.sub.id)
  }

  /** Every task is the one task of its submission. */
  ghost predicate TasksOk(s: State) {
    forall i :: 0 <= i < |s.tasks| ==>
      && TaskInv(s.tasks[i])
      && s.tasks[i].sub < |s.ledger|
      && (var f := s.ledger[s.tasks[i].sub].fate; (f.Active? || f.Retired? || f.Collected?) && f.task == i)
  }

  ghost predicate Containers(s: State, hole: Option<ConversationId>) {
    ActiveOk(s) && PendingOk(s, hole) && RetiredOk(s)
  }

  ghost predicate Places(s: State, hole: Option<ConversationId>) {
    LedgerTrue(s) && Containers(s, hole) && TasksOk(s)
  }

  // Each elementary change keeps the three parts of `Places`.

  lemma StartKeepsLedger(s: State, sub: Submission, hole: Option<ConversationId>)
    requires Places(s, hole)
    requires sub.id < |s.ledger| && s.ledger[sub.id].fate == Arriving
             && s.ledger[sub.id].trigger == WithRunId(sub.trigger)
    requires var c := sub.trigger.conversation; c !in s.active && c !in s.pending
    ensures LedgerTrue(StartTrigger(s, sub))
  {
    var s' := StartTrigger(s, sub);
    forall n | 0 <= n < |s'.ledger| ensures FateTrue(s', n) {
      assert n < |s.ledger| ==> FateTrue(s, n);
    }
  }

  lemma StartKeepsActive(s: State, sub: Submission, hole: Option<ConversationId>)
    requires Places(s, hole)
    requires sub.id < |s.ledger| && s.ledger[sub.id].fate == Arriving
             && s.ledger[sub.id].trigger == WithRunId(sub.trigger)
    requires var c := sub.trigger.conversation; c !in s.active && c !in s.pending
    ensures ActiveOk(StartTrigger(s, sub))
  {
  }

  lemma StartKeepsPending(s: State, sub: Submission, hole: Option<ConversationId>)
    requires Places(s, hole)
    requires sub.id < |s.ledger| && s.ledger[sub.id].fate == Arriving
             && s.ledger[sub.id].trigger == WithRunId(sub.trigger)
    requires var c := sub.trigger.conversation; c !in s.active && c !in s.pending
    ensures PendingOk(StartTrigger(s, sub), hole)
  {
  }

  lemma StartKeepsRetired(s: State, sub: Submission, hole: Option<ConversationId>)
    requires Places(s, hole)
    requires sub.id < |s.ledger| && s.ledger[sub.id].fate == Arriving
             && s.ledger[sub.id].trigger == WithRunId(sub.trigger)
    requires var c := sub.trigger.conversation; c !in s.active && c !in s.pending
    ensures RetiredOk(StartTrigger(s, sub))
  {
  }

  lemma StartKeepsContainers(s: State, sub: Submission, hole: Option<ConversationId>)
    requires Places(s, hole)
    requires sub.id < |s.ledger| && s.ledger[sub.id].fate == Arriving
             && s.ledger[sub.id].trigger == WithRunId(sub.trigger)
    requires var c := sub.trigger.conversation; c !in s.active && c !in s.pending
    ensures Containers(StartTrigger(s, sub), hole)
  {
    StartKeepsActive(s, sub, hole);
    StartKeepsPending(s, sub, hole);
    StartKeepsRetired(s, sub, hole);
  }

  lemma StartKeepsTasks(s: State, sub: Submission, hole: Option<ConversationId>)
    requires Places(s, hole)
    requires sub.id < |s.ledger| && s.ledger[sub.id].fate == Arriving
             && s.ledger[sub.id].trigger == WithRunId(sub.trigger)
    requires var c := sub.trigger.conversation; c !in s.active && c !in s.pending
    ensures TasksOk(StartTrigger(s, sub))
  {
  }

  lemma TakePendingKeepsLedger(s: State, c: ConversationId)
    requires Places(s, Some(c)) && c in s.pending && c !in s.active
    ensures LedgerTrue(TakePending(s, c))
  {
    var s' := TakePending(s, c);
    forall n | 0 <= n < |s'.ledger| ensures FateTrue(s', n) {
      assert n < |s.ledger| ==> FateTrue(s, n);
    }
  }

  lemma TakePendingKeepsActive(s: State, c: ConversationId)
    requires Places(s, Some(c)) && c in s.pending && c !in s.active
    ensures ActiveOk(TakePending(s, c))
  {
  }

  lemma TakePendingKeepsPending(s: State, c: ConversationId)
    requires Places(s, Some(c)) && c in s.pending && c !in s.active
    ensures PendingOk(TakePending(s, c), None)
  {
  }

  lemma TakePendingKeepsRetired(s: State, c: ConversationId)
    requires Places(s, Some(c)) && c in s.pending && c !in s.active
    ensures RetiredOk(TakePending(s, c))
  {
  }

  lemma TakePendingKeepsContainers(s: State, c: ConversationId)
    requires Places(s, Some(c)) && c in s.pending && c !in s.active
    ensures Containers(TakePending(s, c), None)
  {
    TakePendingKeepsActive(s, c);
    TakePendingKeepsPending(s, c);
    TakePendingKeepsRetired(s, c);
  }

  lemma TakePendingKeepsTasks(s: State, c: ConversationId)
    requires Places(s, Some(c)) && c in s.pending && c !in s.active
    ensures TasksOk(TakePending(s, c))
  {
  }

  lemma CollectActiveKeepsLedger(s: State, c: ConversationId)
    requires Places(s, None) && c in s.active && IsDone(s, s.active[c].task)
    ensures LedgerTrue(MarkCollected(s.(active := s.active - {c}), s.active[c]))
  {
    var s' := MarkCollected(s.(active := s.active - {c}), s.active[c]);
    forall n | 0 <= n < |s'.ledger| ensures FateTrue(s', n) {
      assert n < |s.ledger| ==> FateTrue(s, n);
    }
  }

  lemma CollectActiveKeepsActive(s: State, c: ConversationId)
    requires Places(s, None) && c in s.active && IsDone(s, s.active[c].task)
    ensures ActiveOk(MarkCollected(s.(active := s.active - {c}), s.active[c]))
  {
  }

  lemma CollectActiveKeepsPending(s: State, c: ConversationId)
    requires Places(s, None) && c in s.active && IsDone(s, s.active[c].task)
    ensures PendingOk(MarkCollected(s.(active := s.active - {c}), s.active[c]), Some(c))
  {
  }

  lemma CollectActiveKeepsRetired(s: State, c: ConversationId)
    requires Places(s, None) && c in s.active && IsDone(s, s.active[c].task)
    ensures RetiredOk(MarkCollected(s.(active := s.active - {c}), s.active[c]))
  {
  }

  lemma CollectActiveKeepsContainers(s: State, c: ConversationId)
    requires Places(s, None) && c in s.active && IsDone(s, s.active[c].task)
    ensures Containers(MarkCollected(s.(active := s.active - {c}), s.active[c]), Some(c))
  {
    CollectActiveKeepsActive(s, c);
    CollectActiveKeepsPending(s, c);
    CollectActiveKeepsRetired(s, c);
  }

  lemma CollectActiveKeepsTasks(s: State, c: ConversationId)
    requires Places(s, None) && c in s.active && IsDone(s, s.active[c].task)
    ensures TasksOk(MarkCollected(s.(active := s.active - {c}), s.active[c]))
  {
  }

  lemma ArriveKeepsLedger(s: State, t: Trigger, parent: Option<nat>)
    requires Places(s, None)
    ensures LedgerTrue(Arrive(s, t, parent))
  {
    var s' := Arrive(s, t, parent);
    forall n | 0 <= n < |s'.ledger| ensures FateTrue(s', n) {
      assert n < |s.ledger| ==> FateTrue(s, n);
    }
  }

  lemma ArriveKeepsActive(s: State, t: Trigger, parent: Option<nat>)
    requires Places(s, None)
    ensures ActiveOk(Arrive(s, t, parent))
  {
  }

  lemma ArriveKeepsPending(s: State, t: Trigger, parent: Option<nat>)
    requires Places(s, None)
    ensures PendingOk(Arrive(s, t, parent), None)
  {
  }

  lemma ArriveKeepsRetired(s: State, t: Trigger, parent: Option<nat>)
    requires Places(s, None)
    ensures RetiredOk(Arrive(s, t, parent))
  {
  }

  lemma ArriveKeepsContainers(s: State, t: Trigger, parent: Option<nat>)
    requires Places(s, None)
    ensures Containers(Arrive(s, t, parent), None)
  {
    ArriveKeepsActive(s, t, parent);
    ArriveKeepsPending(s, t, parent);
    ArriveKeepsRetired(s, t, parent);
  }

  lemma ArriveKeepsTasks(s: State, t: Trigger, parent: Option<nat>)
    requires Places(s, None)
    ensures TasksOk(Arrive(s, t, parent))
  {
  }

  lemma DisplaceKeepsLedger(s: State, c: ConversationId, newer: nat)
    requires Places(s, None) && c in s.pending
    requires newer == |s.ledger| - 1 && s.ledger[newer].fate == Arriving && s.ledger[newer].trigger.conversation == c
    ensures LedgerTrue(Displace(s, c, newer))
  {
    var s' := Displace(s, c, newer);
    forall n | 0 <= n < |s'.ledger| ensures FateTrue(s', n) {
      assert n < |s.ledger| ==> FateTrue(s, n);
    }
  }

  lemma DisplaceKeepsActive(s: State, c: ConversationId, newer: nat)
    requires Places(s, None) && c in s.pending
    requires newer == |s.ledger| - 1 && s.ledger[newer].fate == Arriving && s.ledger[newer].trigger.conversation == c
    ensures ActiveOk(Displace(s, c, newer))
  {
  }

  lemma DisplaceKeepsPending(s: State, c: ConversationId, newer: nat)
    requires Places(s, None) && c in s.pending
    requires newer == |s.ledger| - 1 && s.ledger[newer].fate == Arriving && s.ledger[newer].trigger.conversation == c
    ensures PendingOk(Displace(s, c, newer), None)
  {
  }

  lemma DisplaceKeepsRetired(s: State, c: ConversationId, newer: nat)
    requires Places(s, None) && c in s.pending
    requires newer == |s.ledger| - 1 && s.ledger[newer].fate == Arriving && s.ledger[newer].trigger.conversation == c
    ensures RetiredOk(Displace(s, c, newer))
  {
  }

  lemma DisplaceKeepsContainers(s: State, c: ConversationId, newer: nat)
    requires Places(s, None) && c in s.pending
    requires newer == |s.ledger| - 1 && s.ledger[newer].fate == Arriving && s.ledger[newer].trigger.conversation == c
    ensures Containers(Displace(s, c, newer), None)
  {
    DisplaceKeepsActive(s, c, newer);
    DisplaceKeepsPending(s, c, newer);
    DisplaceKeepsRetired(s, c, newer);
  }

  lemma DisplaceKeepsTasks(s: State, c: ConversationId, newer: nat)
    requires Places(s, None) && c in s.pending
    requires newer == |s.ledger| - 1 && s.ledger[newer].fate == Arriving && s.ledger[newer].trigger.conversation == c
    ensures TasksOk(Displace(s, c, newer))
  {
  }

  lemma EnqueueKeepsLedger(s: State, sub: Submission)
    requires Places(s, None)
    requires sub.id < |s.ledger| && s.ledger[sub.id].fate == Arriving && s.ledger[sub.id].trigger == sub.trigger
             && sub.trigger.agentRunId.Some?
    requires var c := sub.trigger.conversation; c !in s.pending && c in s.active && IsClosed(s, s.active[c].task)
    ensures LedgerTrue(Enqueue(s, sub))
  {
    var s' := Enqueue(s, sub);
    forall n | 0 <= n < |s'.ledger| ensures FateTrue(s', n) {
      assert n < |s.ledger| ==> FateTrue(s, n);
    }
  }

  lemma EnqueueKeepsActive(s: State, sub: Submission)
    requires Places(s, None)
    requires sub.id < |s.ledger| && s.ledger[sub.id].fate == Arriving && s.ledger[sub.id].trigger == sub.trigger
             && sub.trigger.agentRunId.Some?
    requires var c := sub.trigger.conversation; c !in s.pending && c in s.active && IsClosed(s, s.active[c].task)
    ensures ActiveOk(Enqueue(s, sub))
  {
  }

  lemma EnqueueKeepsPending(s: State, sub: Submission)
    requires Places(s, None)
    requires sub.id < |s.ledger| && s.ledger[sub.id].fate == Arriving && s.ledger[sub.id].trigger == sub.trigger
             && sub.trigger.agentRunId.Some?
    requires var c := sub.trigger.conversation; c !in s.pending && c in s.active && IsClosed(s, s.active[c].task)
    ensures PendingOk(Enqueue(s, sub), None)
  {
  }

  lemma EnqueueKeepsRetired(s: State, sub: Submission)
    requires Places(s, None)
    requires sub.id < |s.ledger| && s.ledger[sub.id].fate == Arriving && s.ledger[sub.id].trigger == sub.trigger
             && sub.trigger.agentRunId.Some?
    requires var c := sub.trigger.conversation; c !in s.pending && c in s.active && IsClosed(s, s.active[c].task)
    ensures RetiredOk(Enqueue(s, sub))
  {
  }

  lemma EnqueueKeepsContainers(s: State, sub: Submission)
    requires Places(s, None)
    requires sub.id < |s.ledger| && s.ledger[sub.id].fate == Arriving && s.ledger[sub.id].trigger == sub.trigger
             && sub.trigger.agentRunId.Some?
    requires var c := sub.trigger.conversation; c !in s.pending && c in s.active && IsClosed(s, s.active[c].task)
    ensures Containers(Enqueue(s, sub), None)
  {
    EnqueueKeepsActive(s, sub);
    EnqueueKeepsPending(s, sub);
    EnqueueKeepsRetired(s, sub);
  }

  lemma EnqueueKeepsTasks(s: State, sub: Submission)
    requires Places(s, None)
    requires sub.id < |s.ledger| && s.ledger[sub.id].fate == Arriving && s.ledger[sub.id].trigger == sub.trigger
             && sub.trigger.agentRunId.Some?
    requires var c := sub.trigger.conversation; c !in s.pending && c in s.active && IsClosed(s, s.active[c].task)
    ensures TasksOk(Enqueue(s, sub))
  {
  }

  lemma RetireKeepsLedger(s: State, c: ConversationId, newer: nat)
    requires Places(s, None) && c in s.active && !IsClosed(s, s.active[c].task)
    requires newer == |s.ledger| - 1 && s.ledger[newer].fate == Arriving && s.ledger[newer].trigger.conversation == c
    ensures LedgerTrue(Retire(s, c, newer))
  {
    var s' := Retire(s, c, newer);
    forall n | 0 <= n < |s'.ledger| ensures FateTrue(s', n) {
      RetireKeepsFate(s, c, newer, n);
    }
  }

  lemma RetireKeepsFate(s: State, c: ConversationId, newer: nat, n: nat)
    requires LedgerTrue(s) && ActiveOk(s) && TasksOk(s) && c in s.active && !IsClosed(s, s.active[c].task)
    requires newer == |s.ledger| - 1 && s.ledger[newer].fate == Arriving && s.ledger[newer].trigger.conversation == c
    requires n < |s.ledger|
    ensures FateTrue(Retire(s, c, newer), n)
  {
    var s' := Retire(s, c, newer);
    assert FateTrue(s, n);
    if n == s.active[c].sub.id {
      assert s'.retired[|s.retired|].turn.sub.id == n;
    } else if s.ledger[n].fate.Retired? {
      var k :| 0 <= k < |s.retired| && s.retired[k].turn.sub.id == n;
      assert s'.retired[k] == s.retired[k];
    }
  }

  lemma RetireKeepsActive(s: State, c: ConversationId, newer: nat)
    requires Places(s, None) && c in s.active && !IsClosed(s, s.active[c].task)
    requires newer == |s.ledger| - 1 && s.ledger[newer].fate == Arriving && s.ledger[newer].trigger.conversation == c
    ensures ActiveOk(Retire(s, c, newer))
  {
  }

  lemma RetireKeepsPending(s: State, c: ConversationId, newer: nat)
    requires Places(s, None) && c in s.active && !IsClosed(s, s.active[c].task)
    requires newer == |s.ledger| - 1 && s.ledger[newer].fate == Arriving && s.ledger[newer].trigger.conversation == c
    ensures PendingOk(Retire(s, c, newer), None)
  {
  }

  lemma RetireKeepsRetired(s: State, c: ConversationId, newer: nat)
    requires Places(s, None) && c in s.active && !IsClosed(s, s.active[c].task)
    requires newer == |s.ledger| - 1 && s.ledger[newer].fate == Arriving && s.ledger[newer].trigger.conversation == c
    ensures RetiredOk(Retire(s, c, newer))
  {
  }

  lemma RetireKeepsContainers(s: State, c: ConversationId, newer: nat)
    requires Places(s, None) && c in s.active && !IsClosed(s, s.active[c].task)
    requires newer == |s.ledger| - 1 && s.ledger[newer].fate == Arriving && s.ledger[newer].trigger.conversation == c
    ensures Containers(Retire(s, c, newer), None)
  {
    RetireKeepsActive(s, c, newer);
    RetireKeepsPending(s, c, newer);
    RetireKeepsRetired(s, c, newer);
  }

  lemma RetireKeepsTasks(s: State, c: ConversationId, newer: nat)
    requires Places(s, None) && c in s.active && !IsClosed(s, s.active[c].task)
    requires newer == |s.ledger| - 1 && s.ledger[newer].fate == Arriving && s.ledger[newer].trigger.conversation == c
    ensures TasksOk(Retire(s, c, newer))
  {
  }

  lemma CollectRetiredKeepsLedger(s: State, k: nat)
    requires Places(s, None) && k < |s.retired| && IsDone(s, s.retired[k].turn.task)
    ensures LedgerTrue(MarkCollected(s.(retired := s.retired[..k] + s.retired[k + 1..]), s.retired[k].turn))
  {
    var s' := MarkCollected(s.(retired := s.retired[..k] + s.retired[k + 1..]), s.retired[k].turn);
    forall n | 0 <= n < |s'.ledger| ensures FateTrue(s', n) {
      assert n < |s.ledger| ==> FateTrue(s, n);
      if s'.ledger[n].fate.Retired? {
        var j :| 0 <= j < |s.retired| && s.retired[j].turn.sub.id == n;
        assert s'.retired[if j < k then j else j - 1] == s.retired[j];
      }
    }
  }

  lemma CollectRetiredKeepsActive(s: State, k: nat)
    requires Places(s, None) && k < |s.retired| && IsDone(s, s.retired[k].turn.task)
    ensures ActiveOk(MarkCollected(s.(retired := s.retired[..k] + s.retired[k + 1..]), s.retired[k].turn))
  {
  }

  lemma CollectRetiredKeepsPending(s: State, k: nat)
    requires Places(s, None) && k < |s.retired| && IsDone(s, s.retired[k].turn.task)
    ensures PendingOk(MarkCollected(s.(retired := s.retired[..k] + s.retired[k + 1..]), s.retired[k].turn), None)
  {
  }

  lemma CollectRetiredKeepsRetired(s: State, k: nat)
    requires Places(s, None) && k < |s.retired| && IsDone(s, s.retired[k].turn.task)
    ensures RetiredOk(MarkCollected(s.(retired := s.retired[..k] + s.retired[k + 1..]), s.retired[k].turn))
  {
    var s' := MarkCollected(s.(retired := s.retired[..k] + s.retired[k + 1..]), s.retired[k].turn);
    forall j | 0 <= j < |s'.retired|
      ensures s'.retired[j] == s.retired[if j < k then j else j + 1]
      ensures s'.retired[j].turn.sub.id != s.retired[k].turn.sub.id
    {
    }
  }

  lemma CollectRetiredKeepsContainers(s: State, k: nat)
    requires Places(s, None) && k < |s.retired| && IsDone(s, s.retired[k].turn.task)
    ensures Containers(MarkCollected(s.(retired := s.retired[..k] + s.retired[k + 1..]), s.retired[k].turn), None)
  {
    CollectRetiredKeepsActive(s, k);
    CollectRetiredKeepsPending(s, k);
    CollectRetiredKeepsRetired(s, k);
  }

  lemma CollectRetiredKeepsTasks(s: State, k: nat)
    requires Places(s, None) && k < |s.retired| && IsDone(s, s.retired[k].turn.task)
    ensures TasksOk(MarkCollected(s.(retired := s.retired[..k] + s.retired[k + 1..]), s.retired[k].turn))
  {
  }

  lemma TaskActsKeepsLedger(s: State, i: nat, a: Action)
    requires Places(s, None) && i < |s.tasks|
    ensures LedgerTrue(TaskActs(s, i, a))
  {
    ActKeeps(s.tasks[i], a);
    var s' := TaskActs(s, i, a);
    forall n | 0 <= n < |s'.ledger| ensures FateTrue(s', n) {
      assert n < |s.ledger| ==> FateTrue(s, n);
    }
  }

  lemma TaskActsKeepsActive(s: State, i: nat, a: Action)
    requires Places(s, None) && i < |s.tasks|
    ensures ActiveOk(TaskActs(s, i, a))
  {
    ActKeeps(s.tasks[i], a);
  }

  lemma TaskActsKeepsPending(s: State, i: nat, a: Action)
    requires Places(s, None) && i < |s.tasks|
    ensures PendingOk(TaskActs(s, i, a), None)
  {
    ActKeeps(s.tasks[i], a);
  }

  lemma TaskActsKeepsRetired(s: State, i: nat, a: Action)
    requires Places(s, None) && i < |s.tasks|
    ensures RetiredOk(TaskActs(s, i, a))
  {
    ActKeeps(s.tasks[i], a);
  }

  lemma TaskActsKeepsContainers(s: State, i: nat, a: Action)
    requires Places(s, None) && i < |s.tasks|
    ensures Containers(TaskActs(s, i, a), None)
  {
    TaskActsKeepsActive(s, i, a);
    TaskActsKeepsPending(s, i, a);
    TaskActsKeepsRetired(s, i, a);
  }

  lemma TaskActsKeepsTasks(s: State, i: nat, a: Action)
    requires Places(s, None) && i < |s.tasks|
    ensures TasksOk(TaskActs(s, i, a))
  {
    ActKeeps(s.tasks[i], a);
  }

}
