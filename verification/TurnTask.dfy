/**
  One interactive turn as the supervisor sees it: a task that records its reply, commits its
  close boundary and sends segments, one uninterrupted piece at a time
  (coke/turn/runner.py, coke/turn/inbound/pipeline.py).
*/
module TurnTask {
  import opened Options

  type TurnResult(==, !new)

  datatype Outcome = Value(result: TurnResult) | Failed | Cancelled

  /** What the outside world sees of a turn: its close boundary commits and its reply segments. */
  datatype Event = Commit | Send

  /** `sub` is the submission the task runs; `recorded` says that reply rows of the turn exist;
      `closeCommitted` is the lifecycle flag the supervisor reads, set by the close observer;
      `deliveryClosed` is the delivery port's own flag. */
  datatype Task = Task(sub: nat, outcome: Option<Outcome>, cancelRequested: bool, closeCommitted: bool,
                       recorded: bool, deliveryClosed: bool, log: seq<Event>)

  function NewTask(sub: nat): Task { Task(sub, None, false, false, false, false, []) }

  datatype Action =
    | Record            // the close coordinator stores the reply rows
    | Deliver           // the delivery port is handed one segment
    | PipelineReturned  // the runner resumes after the pipeline
    | Recover           // a recovery reply is stored, committed and sent
    | StayQuiet         // a no-reply disposition is committed
    | Finish(outcome: Outcome)

  function CommitClose(t: Task): Task { t.(closeCommitted := true, log := t.log + [Commit]) }

  function SendSegment(t: Task): Task { t.(log := t.log + [Send]) }

  /** One piece of the task. A task asked to cancel runs no more of its own code; it only ends. */
  function Act(t: Task, a: Action): Task {
    if t.outcome.Some? then t
    else
      match a
      case Finish(o) => t.(outcome := Some(o))
      case _ =>
        if t.cancelRequested then t
        else
          match a
          case Record => t.(recorded := true)
          case Deliver =>
            if t.recorded && !t.deliveryClosed then SendSegment(CommitClose(t).(deliveryClosed := true))
               else SendSegment(t)
          case PipelineReturned => if t.deliveryClosed then t else CommitClose(t)
          case Recover => SendSegment(CommitClose(t.(recorded := true)))
          case StayQuiet => CommitClose(t)
  }

  /** A segment went out before any close boundary was committed. */
  predicate SpokeEarly(t: Task) { t.log != [] && t.log[0] == Send }

  predicate Spoke(t: Task) { Send in t.log }

  predicate TaskInv(t: Task) {
    && (t.closeCommitted <==> Commit in t.log)
    && (t.cancelRequested ==> !t.closeCommitted)
    && (t.deliveryClosed ==> t.closeCommitted)
  }

  lemma ActKeeps(t: Task, a: Action)
    requires TaskInv(t)
    ensures TaskInv(Act(t, a))
    ensures var t' := Act(t, a);
            && t'.sub == t.sub && t'.cancelRequested == t.cancelRequested
            && (t.closeCommitted ==> t'.closeCommitted)
            && (t.outcome.Some? ==> t' == t)
  {
  }

  /** Storing reply rows before the first segment is handed over (`CloseCoordinator.commit` comes
      before the delivery loop of the pipeline) is exactly what keeps an action from speaking
      before the close. */
  lemma EarlyOnlyUnrecorded(t: Task, a: Action)
    requires TaskInv(t) && !SpokeEarly(t)
    ensures SpokeEarly(Act(t, a)) <==> a.Deliver? && !t.recorded && t.outcome.None? && !t.cancelRequested && t.log == []
  {
  }

  /** A task that has not committed its close has spoken only if it spoke early. */
  lemma UncommittedSpokeEarly(t: Task)
    requires TaskInv(t) && !t.closeCommitted
    ensures Spoke(t) <==> SpokeEarly(t)
  {
    if Spoke(t) {
      assert t.log[0] in t.log;
    }
  }

  /** The normal replied turn: rows stored, `n` segments handed over, the runner resumes. */
  function Deliveries(t: Task, n: nat): Task { if n == 0 then t else Act(Deliveries(t, n - 1), Deliver) }

  function Replied(sub: nat, n: nat): Task { Act(Deliveries(Act(NewTask(sub), Record), n), PipelineReturned) }

  function Sends(n: nat): seq<Event> { if n == 0 then [] else Sends(n - 1) + [Send] }

  /** On the replied path the close is committed exactly once, before every segment, and each
      segment is sent exactly once. */
  lemma {:induction false} RepliedCommitsOnce(sub: nat, n: nat)
    ensures Replied(sub, n).log == [Commit] + Sends(n)
    ensures Commit !in Sends(n) && |Sends(n)| == n
  {
    if n > 0 {
      RepliedCommitsOnce(sub, n - 1);
      DeliveriesLog(sub, n);
    }
  }

  lemma {:induction false} DeliveriesLog(sub: nat, n: nat)
    requires n > 0
    ensures var t := Deliveries(Act(NewTask(sub), Record), n);
            && t.log == [Commit] + Sends(n) && t.deliveryClosed && t.recorded
            && t.outcome.None? && !t.cancelRequested
  {
    if n > 1 {
      DeliveriesLog(sub, n - 1);
      assert ([Commit] + Sends(n - 1)) + [Send] == [Commit] + Sends(n);
    } else {
      assert Sends(0) == [];
    }
  }

  /** The other ways a turn ends: a recovery reply is committed before it is sent, a turn that stays
      quiet only commits, and a pipeline that sent nothing is closed by the runner. */
  lemma OtherEndings(t: Task)
    requires t.outcome.None? && !t.cancelRequested
    ensures Act(t, Recover).log == t.log + [Commit, Send] && Act(t, Recover).recorded
    ensures Act(t, StayQuiet).log == t.log + [Commit]
    ensures Act(t, PipelineReturned).log == if t.deliveryClosed then t.log else t.log + [Commit]
  {
  }

  /** A task that was asked to cancel, or has ended, does nothing more that can be seen; the only
      thing left to it is to end, once. */
  lemma CancelledDoesNothing(t: Task, a: Action)
    requires t.outcome.Some? || t.cancelRequested
    ensures Act(t, a) == if a.Finish? && t.outcome == None then t.(outcome := Some(a.outcome)) else t
  {
  }
}
