/**
  Whether a superseded turn can have spoken. The supervisor never cancels a turn whose close is
  committed, so a turn it cancelled has spoken only if a segment was handed to the delivery port
  before any reply row was stored.
*/
module SupervisorSpeech {
  import opened Options
  import opened TurnTask
  import opened Supervisor
  import opened SupervisorInvariant
  import opened SupervisorMethods
  import opened SupervisorRuns
  import opened SupervisorHistory

  /** In `w`, `step` hands a segment over for a turn that has stored no reply row and sent nothing. */
  predicate HandsOverEarly(w: World, step: Step) {
    && step.TaskStep? && step.action.Deliver? && step.task < |w.sup.tasks|
    && var t := w.sup.tasks[step.task];
       !t.recorded && t.log == [] && t.outcome.None? && !t.cancelRequested
  }

  /** Somewhere in the run task `i` was handed a segment early. */
  predicate HandedEarly(steps: seq<Step>, i: nat) {
    && steps != []
    && var before, step := steps[..|steps| - 1], steps[|steps| - 1];
       HandedEarly(before, i) || (HandsOverEarly(Run(before), step) && step.task == i)
  }

  lemma ActSpeaksEarly(t: Task, a: Action)
    requires TaskInv(t)
    ensures SpokeEarly(Act(t, a)) <==>
            SpokeEarly(t) || (a.Deliver? && !t.recorded && t.log == [] && t.outcome.None? && !t.cancelRequested)
  {
    if !SpokeEarly(t) {
      EarlyOnlyUnrecorded(t, a);
    }
  }

  /** One step makes a task one that spoke early exactly if it hands that task a segment early. */
  lemma NextSpeaksEarly(w: World, step: Step, i: nat)
    requires WorldOk(w) && i < |Next(w, step).sup.tasks|
    ensures SpokeEarly(Next(w, step).sup.tasks[i]) <==>
            (i < |w.sup.tasks| && SpokeEarly(w.sup.tasks[i])) || (HandsOverEarly(w, step) && step.task == i)
  {
    if step.TaskStep? {
      if step.task < |w.sup.tasks| {
        ActSpeaksEarly(w.sup.tasks[step.task], step.action);
      }
    } else {
      NextQuiet(w, step);
    }
  }

  lemma TasksStay(w: World, step: Step)
    ensures |w.sup.tasks| <= |Next(w, step).sup.tasks|
  {
    if !step.TaskStep? {
      NextQuiet(w, step);
    }
  }

  /** A turn sent a segment before its close exactly if the run handed it one before any of its
      reply rows was stored. */
  lemma {:induction false} SpokeEarlyIff(steps: seq<Step>, i: nat)
    ensures HandedEarly(steps, i) <==> i < |Run(steps).sup.tasks| && SpokeEarly(Run(steps).sup.tasks[i])
  {
    if steps != [] {
      var before, step := steps[..|steps| - 1], steps[|steps| - 1];
      SpokeEarlyIff(before, i);
      RunKeeps(before);
      TasksStay(Run(before), step);
      if i < |Run(steps).sup.tasks| {
        NextSpeaksEarly(Run(before), step, i);
      }
    }
  }

  /** A turn that was asked to cancel has spoken exactly if it was handed a segment before any of
      its reply rows was stored, whatever the other turns did. */
  lemma SupersededSpokeIff(steps: seq<Step>, i: nat)
    requires i < |Run(steps).sup.tasks| && Run(steps).sup.tasks[i].cancelRequested
    ensures Spoke(Run(steps).sup.tasks[i]) <==> HandedEarly(steps, i)
  {
    RunKeeps(steps);
    SpokeEarlyIff(steps, i);
    UncommittedSpokeEarly(Run(steps).sup.tasks[i]);
  }

  /** A turn whose reply rows are stored first commits its close before any segment is sent, and
      has sent none if it was asked to cancel. */
  lemma SupersededTurnNeverSpoke(steps: seq<Step>, i: nat)
    requires i < |Run(steps).sup.tasks| && !HandedEarly(steps, i)
    ensures var t := Run(steps).sup.tasks[i];
            && (t.cancelRequested ==> !Spoke(t))
            && (Spoke(t) ==> t.closeCommitted && t.log[0] == Commit)
  {
    RunKeeps(steps);
    SpokeEarlyIff(steps, i);
    var t := Run(steps).sup.tasks[i];
    if !t.closeCommitted {
      UncommittedSpokeEarly(t);
    }
  }

  /** The condition is needed: a turn that hands over a segment first has spoken when a newer
      message cancels it. */
  lemma SpeakingFirstThenSuperseded(t: Trigger, newer: Trigger)
    requires newer.conversation == t.conversation
    ensures var steps := [NewTrigger(t), TaskStep(0, Deliver), NewTrigger(newer)];
            HandedEarly(steps, 0) && |Run(steps).sup.tasks| == 2
            && Run(steps).sup.tasks[0].cancelRequested && Spoke(Run(steps).sup.tasks[0])
  {
    var steps := [NewTrigger(t), TaskStep(0, Deliver), NewTrigger(newer)];
    var one, two := [NewTrigger(t)], [NewTrigger(t), TaskStep(0, Deliver)];
    assert one[..0] == [] && two[..1] == one && steps[..2] == two;
    assert Run([]) == FIRST;
    var w1 := Run(one);
    assert w1 == Next(FIRST, NewTrigger(t));
    assert w1.sup.tasks == [NewTask(0)];
    var w2 := Run(two);
    assert w2 == Next(w1, TaskStep(0, Deliver));
    assert w2.sup.tasks == [SendSegment(NewTask(0))];
    assert HandsOverEarly(w1, TaskStep(0, Deliver));
    var w3 := Run(steps);
    assert w3 == Next(w2, NewTrigger(newer));
    assert w3.sup.tasks[0] == SendSegment(NewTask(0)).(cancelRequested := true);
    assert w3.sup.tasks[0].log[0] == Send;
  }
}
