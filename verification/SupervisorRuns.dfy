/**
  The supervisor and the worker's drain loop over whole runs (coke/worker/__main__.py): triggers
  arrive, tasks and provider cancels move on between any two steps, and the worker drains,
  retries, commits and publishes, failing wherever it can.
*/
module SupervisorRuns {
  import opened Options
  import opened TurnTask
  import opened Supervisor
  import opened SupervisorInvariant
  import opened SupervisorResults
  import opened SupervisorMethods

  /** Where `_drain_supervisor_completions` stands. */
  datatype Phase = Idle | Drained | Retrying | Publishing

  /** `inflight` is `remaining`, the completions drained and not yet published; `failing` are the
      failures drained and not yet looked at. */
  datatype World = World(sup: State, phase: Phase, inflight: seq<Completion>, failing: seq<Failure>,
    published: seq<Completion>)

  datatype Step =
    | NewTrigger(trigger: Trigger)
    | CancelRuns(runIds: seq<Option<RunId>>, forTrigger: Option<Trigger>)
    | TaskStep(task: nat, action: Action)
    | CancelStep(cancel: nat, status: CancelStatus)
    | BeginDrain(order: seq<ConversationId>)     // drain_completed
    | TakeFailures(order: seq<ConversationId>)   // drain_failures
    | RetryNext                                  // one round of the loop over failures
    | BeginPublish                               // the session commits
    | PublishNext                                // one completion is published
    | PublishFails                               // the commit or a publish raises
    | DrainEnds

  const FIRST := World(START, Idle, [], [], [])

  /** `_retry_trigger_for_supervisor_failure` */
  function RetryTrigger(f: Failure): Option<Trigger> {
    match f
    case ProviderFailure(_) => None
    case TurnFailure(sub) =>
      if sub.trigger.mode.Interactive? && WorkerRetryCount(sub.trigger) < SUPERVISED_TURN_FAILURE_RETRY_LIMIT
      then Some(Again(sub.trigger)) else None
  }

  /** One round of the loop of `_drain_supervisor_failures`. */
  function Retry(s: State, f: Failure): State {
    var t := RetryTrigger(f);
    if t.Some? then SubmitIfIdle(s, t.value, Some(f.sub.id)) else s
  }

  /** A step that cannot be taken here leaves the world as it is. */
  function Next(w: World, step: Step): World {
    match step
    case NewTrigger(t) => if w.phase.Idle? then w.(sup := Submit(w.sup, t, None)) else w
    case CancelRuns(runIds, t) => if w.phase.Idle? then w.(sup := CancelProviderRuns(w.sup, runIds, t)) else w
    case TaskStep(i, a) => if i < |w.sup.tasks| then w.(sup := TaskActs(w.sup, i, a)) else w
    case CancelStep(k, status) => if k < |w.sup.cancels| then w.(sup := CancelEnds(w.sup, k, status)) else w
    case BeginDrain(order) =>
      if w.phase.Idle? then w.(sup := DrainCompleted(w.sup, order), phase := Drained,
           inflight := CollectAll(w.sup, order).completed) else w
    case TakeFailures(order) =>
      if w.phase.Drained? then w.(sup := DrainFailures(w.sup, order), phase := Retrying,
           failing := CollectAll(w.sup, order).failures) else w
    case RetryNext =>
      if w.phase.Retrying? && w.failing != [] then w.(sup := Retry(w.sup, w.failing[0]), failing := w.failing[1..])
         else w
    case BeginPublish => if w.phase.Retrying? && w.failing == [] then w.(phase := Publishing) else w
    case PublishNext =>
      if w.phase.Publishing? && w.inflight != []
         then w.(inflight := w.inflight[1..], published := w.published + [w.inflight[0]]) else w
    case PublishFails =>
      if w.phase.Publishing? then w.(sup := RestoreCompleted(w.sup, w.inflight), inflight := [], phase := Idle) else w
    case DrainEnds => if w.phase.Publishing? && w.inflight == [] then w.(phase := Idle) else w
  }

  function Run(steps: seq<Step>): World {
    if steps == [] then FIRST else Next(Run(steps[..|steps| - 1]), steps[|steps| - 1])
  }

  // -------------------------------------------------------- what every run keeps

  ghost predicate WorldOk(w: World) {
    && Good(w.sup, None, None, w.failing, w.published + w.inflight)
    && (w.phase.Idle? ==> w.inflight == [])
    && (!w.phase.Retrying? ==> w.failing == [])
  }

  /** The failure at the head of the queue is taken off it, and may be retried. */
  lemma HeadMayRetry(s: State, q: seq<Failure>, ahead: seq<Completion>)
    requires q != [] && Good(s, None, None, q, ahead)
    ensures Good(s, None, None, q[1..], ahead)
    ensures RetryTrigger(q[0]).Some? ==> MayRetry(s, RetryTrigger(q[0]).value, q[0].sub.id, q[1..] + s.failures)
  {
    FreshTail(s, q, s.failures);
    assert (q + s.failures)[1..] == q[1..] + s.failures && (q + s.failures)[0] == q[0];
    SuffixTail(q + s.failures, s.failed);
  }

  lemma RetryGood(s: State, q: seq<Failure>, ahead: seq<Completion>)
    requires q != [] && Good(s, None, None, q, ahead)
    ensures Good(Retry(s, q[0]), None, None, q[1..], ahead)
  {
    if RetryTrigger(q[0]).Some? {
      var t := RetryTrigger(q[0]).value;
      BeforeIdleSubmitGood(s, t.conversation, q, ahead);
      var s1 := BeforeIdleSubmit(s, t.conversation);
      HeadMayRetry(s1, q, ahead);
      if IsIdle(s1, t.conversation) {
        SubmitGood(s1, t, Some(q[0].sub.id), q[1..], ahead);
      }
    } else {
      HeadMayRetry(s, q, ahead);
    }
  }

  lemma CancelEndsGood(s: State, k: nat, status: CancelStatus, held: seq<Failure>, ahead: seq<Completion>)
    requires Good(s, None, None, held, ahead) && k < |s.cancels|
    ensures Good(CancelEnds(s, k, status), None, None, held, ahead)
  {
    PlacesFrame(s, CancelEnds(s, k, status), None);
    SameGood(s, CancelEnds(s, k, status), None, None, None, None, held, ahead);
  }

  /** A world is in order when its parts are. */
  lemma OkFrom(w: World, s: State, held: seq<Failure>, ahead: seq<Completion>)
    requires Good(s, None, None, held, ahead)
    requires w.sup == s && w.failing == held && w.published + w.inflight == ahead
    requires (w.phase.Idle? ==> w.inflight == []) && (!w.phase.Retrying? ==> w.failing == [])
    ensures WorldOk(w)
  {
  }

  lemma SubmitKeeps(w: World, t: Trigger)
    requires WorldOk(w)
    ensures WorldOk(Next(w, NewTrigger(t)))
  {
    if w.phase.Idle? {
      var ahead := w.published + w.inflight;
      SubmitGood(w.sup, t, None, [], ahead);
      OkFrom(Next(w, NewTrigger(t)), Submit(w.sup, t, None), [], ahead);
    }
  }

  lemma CancelRunsKeeps(w: World, runIds: seq<Option<RunId>>, t: Option<Trigger>)
    requires WorldOk(w)
    ensures WorldOk(Next(w, CancelRuns(runIds, t)))
  {
    if w.phase.Idle? {
      var ahead := w.published + w.inflight;
      CancelProviderRunsGood(w.sup, runIds, t, [], ahead);
      OkFrom(Next(w, CancelRuns(runIds, t)), CancelProviderRuns(w.sup, runIds, t), [], ahead);
    }
  }

  lemma TaskStepKeeps(w: World, i: nat, a: Action)
    requires WorldOk(w)
    ensures WorldOk(Next(w, TaskStep(i, a)))
  {
    if i < |w.sup.tasks| {
      var ahead := w.published + w.inflight;
      TaskActsGood(w.sup, i, a, w.failing, ahead);
      OkFrom(Next(w, TaskStep(i, a)), TaskActs(w.sup, i, a), w.failing, ahead);
    }
  }

  lemma CancelStepKeeps(w: World, k: nat, status: CancelStatus)
    requires WorldOk(w)
    ensures WorldOk(Next(w, CancelStep(k, status)))
  {
    if k < |w.sup.cancels| {
      var ahead := w.published + w.inflight;
      CancelEndsGood(w.sup, k, status, w.failing, ahead);
      OkFrom(Next(w, CancelStep(k, status)), CancelEnds(w.sup, k, status), w.failing, ahead);
    }
  }

  lemma DrainKeeps(w: World, order: seq<ConversationId>)
    requires WorldOk(w)
    ensures WorldOk(Next(w, BeginDrain(order)))
  {
    if w.phase.Idle? {
      var ahead := w.published + CollectAll(w.sup, order).completed;
      assert w.published + w.inflight == w.published;
      DrainCompletedGood(w.sup, order, [], w.published);
      OkFrom(Next(w, BeginDrain(order)), DrainCompleted(w.sup, order), [], ahead);
    }
  }

  lemma TakeFailuresKeeps(w: World, order: seq<ConversationId>)
    requires WorldOk(w)
    ensures WorldOk(Next(w, TakeFailures(order)))
  {
    if w.phase.Drained? {
      var ahead := w.published + w.inflight;
      DrainFailuresGood(w.sup, order, ahead);
      OkFrom(Next(w, TakeFailures(order)), DrainFailures(w.sup, order), CollectAll(w.sup, order).failures, ahead);
    }
  }

  lemma RetryKeeps(w: World)
    requires WorldOk(w)
    ensures WorldOk(Next(w, RetryNext))
  {
    if w.phase.Retrying? && w.failing != [] {
      var ahead := w.published + w.inflight;
      RetryGood(w.sup, w.failing, ahead);
      RetriedOk(w);
    }
  }

  lemma RetriedOk(w: World)
    requires w.phase.Retrying? && w.failing != []
    requires Good(Retry(w.sup, w.failing[0]), None, None, w.failing[1..], w.published + w.inflight)
    ensures WorldOk(Next(w, RetryNext))
  {
    OkFrom(Next(w, RetryNext), Retry(w.sup, w.failing[0]), w.failing[1..], w.published + w.inflight);
  }

  lemma PublishKeeps(w: World)
    requires WorldOk(w)
    ensures WorldOk(Next(w, PublishNext))
  {
    if w.phase.Publishing? && w.inflight != [] {
      assert (w.published + [w.inflight[0]]) + w.inflight[1..] == w.published + w.inflight;
      OkFrom(Next(w, PublishNext), w.sup, w.failing, w.published + w.inflight);
    }
  }

  lemma FailureKeeps(w: World)
    requires WorldOk(w)
    ensures WorldOk(Next(w, PublishFails))
  {
    if w.phase.Publishing? {
      RestoreGood(w.sup, w.inflight, w.published);
      assert w.published + [] == w.published;
      OkFrom(Next(w, PublishFails), RestoreCompleted(w.sup, w.inflight), [], w.published);
    }
  }

  lemma NextKeeps(w: World, step: Step)
    requires WorldOk(w)
    ensures WorldOk(Next(w, step))
  {
    match step
    case NewTrigger(t) => SubmitKeeps(w, t);
    case CancelRuns(runIds, t) => CancelRunsKeeps(w, runIds, t);
    case TaskStep(i, a) => TaskStepKeeps(w, i, a);
    case CancelStep(k, status) => CancelStepKeeps(w, k, status);
    case BeginDrain(order) => DrainKeeps(w, order);
    case TakeFailures(order) => TakeFailuresKeeps(w, order);
    case RetryNext => RetryKeeps(w);
    case PublishNext => PublishKeeps(w);
    case PublishFails => FailureKeeps(w);
    case BeginPublish =>
    case DrainEnds =>
  }

  lemma {:induction false} RunKeeps(steps: seq<Step>)
    ensures WorldOk(Run(steps))
  {
    if steps == [] {
      FirstOk();
    } else {
      RunKeeps(steps[..|steps| - 1]);
      NextKeeps(Run(steps[..|steps| - 1]), steps[|steps| - 1]);
    }
  }

  lemma FirstOk()
    ensures WorldOk(FIRST)
  {
  }
}
