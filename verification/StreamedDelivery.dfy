/**
  The two ways a reply leaves: segment by segment through the delivery port, or from the validated
  output, which can skip what the port has already sent (coke/turn/runner.py).
*/
module StreamedDelivery {
  import opened Options
  import opened ReplyDelivery

  /** What leaves the process: the close boundary commit and the requests, in order. */
  datatype Event = Commit | Sent(request: Request)

  function Sends(requests: seq<Request>): (r: seq<Event>)
    ensures |r| == |requests| && forall i :: 0 <= i < |r| ==> r[i] == Sent(requests[i])
  {
    seq(|requests|, i requires 0 <= i < |requests| => Sent(requests[i]))
  }

  /** The requests among the events. */
  function RequestsIn(log: seq<Event>): seq<Request> {
    if log == [] then []
    else
      var rest := RequestsIn(log[..|log| - 1]);
      match log[|log| - 1] case Commit => rest case Sent(request) => rest + [request]
  }

  /** The rows with a segment index above zero. */
  function Indexed(ms: seq<Message>): seq<Message> {
    if ms == [] then []
    else
      var rest := Indexed(ms[..|ms| - 1]);
      if SortIndex(ms[|ms| - 1]) > 0 then rest + [ms[|ms| - 1]] else rest
  }

  /** `_outbound_messages`; `None` is the error the port swallows. */
  function OutboundMessages(stored: Option<seq<Message>>): seq<Message> {
    if stored.None? then [] else Indexed(stored.value)
  }

  /** The delivery port of one turn. */
  datatype Port = Port(count: nat, closeCommitted: bool, log: seq<Event>)

  const FRESH := Port(0, false, [])

  function CommitOf(commits: bool): seq<Event> { if commits then [Commit] else [] }

  /** `_TurnPipelineRunnerDelivery.deliver` */
  function DeliverOne(p: Port, t: Trigger, turnId: string, segment: string, ms: seq<Message>): Port {
    Port(p.count + 1, p.closeCommitted || ms != [],
         p.log + CommitOf(ms != [] && !p.closeCommitted)
           + Sends(ReplyDeliveryRequests(t, turnId, [segment], ms, p.count + 1)))
  }

  function DeliverEach(p: Port, t: Trigger, turnId: string, segments: seq<string>, ms: seq<Message>): Port {
    if segments == [] then p
    else DeliverOne(DeliverEach(p, t, turnId, segments[..|segments| - 1], ms), t, turnId, segments[|segments| - 1], ms)
  }

  function DeliverySegments(t: Trigger, segments: seq<string>): seq<string> {
    if t.triggerType.InboundTurn? || |segments| <= 1 then segments else [Joined(segments)]
  }

  function Joined(segments: seq<string>): string
    requires segments != []
  {
    if |segments| == 1 then segments[0] else Joined(segments[..|segments| - 1]) + "\n" + segments[|segments| - 1]
  }

  /** What `_record_validated_output` sends, `skip` segments having been sent before. */
  function RemainingRequests(t: Trigger, turnId: string, validated: seq<string>, skip: nat,
                             ms: seq<Message>): seq<Request>
  {
    var segments := DeliverySegments(t, validated);
    ReplyDeliveryRequests(t, turnId, if skip <= |segments| then segments[skip..] else [], ms, skip + 1)
  }

  // ------------------------------------------------------------------------ theorems

  lemma {:induction false} RequestsInConcat(a: seq<Event>, b: seq<Event>)
    ensures RequestsIn(a + b) == RequestsIn(a) + RequestsIn(b)
  {
    if b == [] {
      assert a + b == a;
    } else {
      RequestsInConcat(a, b[..|b| - 1]);
      assert (a + b)[..|a + b| - 1] == a + b[..|b| - 1];
    }
  }

  lemma {:induction false} RequestsInSends(requests: seq<Request>)
    ensures RequestsIn(Sends(requests)) == requests
  {
    if requests != [] {
      var init := requests[..|requests| - 1];
      RequestsInSends(init);
      assert Sends(requests)[..|requests| - 1] == Sends(init);
      assert requests == init + [requests[|requests| - 1]];
    }
  }

  /** One recipient: segment by segment is the batch, after a single commit that comes first
      whenever there are recorded rows. */
  lemma {:induction false} StreamIsBatch(t: Trigger, turnId: string, segments: seq<string>, ms: seq<Message>)
    requires |RecipientAccountIds(t)| == 1
    ensures var p := DeliverEach(FRESH, t, turnId, segments, ms);
            && p.count == |segments|
            && (p.closeCommitted <==> segments != [] && ms != [])
            && p.log == CommitOf(p.closeCommitted) + Sends(ReplyDeliveryRequests(t, turnId, segments, ms, 1))
  {
    if segments == [] {
      OnlyOne(t, turnId, [], ms, 1);
    } else {
      var n := |segments| - 1;
      StreamIsBatch(t, turnId, segments[..n], ms);
      LastIsAppended(t, turnId, segments, ms);
      DeliverGoesOn(DeliverEach(FRESH, t, turnId, segments[..n], ms), t, turnId, segments[n], ms,
        ReplyDeliveryRequests(t, turnId, segments[..n], ms, 1));
    }
  }

  lemma LastIsAppended(t: Trigger, turnId: string, segments: seq<string>, ms: seq<Message>)
    requires |RecipientAccountIds(t)| == 1 && segments != []
    ensures var n := |segments| - 1;
            && ReplyDeliveryRequests(t, turnId, segments[..n], ms, 1)
              + ReplyDeliveryRequests(t, turnId, [segments[n]], ms, n + 1)
               == ReplyDeliveryRequests(t, turnId, segments, ms, 1)
            && (n == 0 ==> ReplyDeliveryRequests(t, turnId, segments[..n], ms, 1) == [])
  {
    var n := |segments| - 1;
    SplitForOne(t, turnId, segments, ms, 1, n);
    assert segments[n..] == [segments[n]];
    OnlyOne(t, turnId, segments[..n], ms, 1);
  }

  lemma DeliverGoesOn(p: Port, t: Trigger, turnId: string, segment: string, ms: seq<Message>, sent: seq<Request>)
    requires p.log == CommitOf(p.closeCommitted) + Sends(sent)
    requires !p.closeCommitted && ms != [] ==> sent == []
    ensures DeliverOne(p, t, turnId, segment, ms).log
            == CommitOf(p.closeCommitted || ms != [])
              + Sends(sent + ReplyDeliveryRequests(t, turnId, [segment], ms, p.count + 1))
  {
    LogGoesOn(p.log, p.closeCommitted, ms != [], sent, ReplyDeliveryRequests(t, turnId, [segment], ms, p.count + 1));
  }

  lemma LogGoesOn(log: seq<Event>, closed: bool, recorded: bool, sent: seq<Request>, now: seq<Request>)
    requires log == CommitOf(closed) + Sends(sent)
    requires !closed && recorded ==> sent == []
    ensures log + CommitOf(recorded && !closed) + Sends(now) == CommitOf(closed || recorded) + Sends(sent + now)
  {
    if recorded && !closed {
      assert log == [] && sent + now == now;
    }
  }

  lemma RequestsInDelivered(p: Port, t: Trigger, turnId: string, segment: string, ms: seq<Message>)
    ensures RequestsIn(DeliverOne(p, t, turnId, segment, ms).log)
            == RequestsIn(p.log) + ReplyDeliveryRequests(t, turnId, [segment], ms, p.count + 1)
  {
    var commits, now := ms != [] && !p.closeCommitted, ReplyDeliveryRequests(t, turnId, [segment], ms, p.count + 1);
    assert DeliverOne(p, t, turnId, segment, ms).log == p.log + CommitOf(commits) + Sends(now);
    LogRequests(p.log, commits, now);
  }

  lemma LogRequests(log: seq<Event>, commits: bool, now: seq<Request>)
    ensures RequestsIn(log + CommitOf(commits) + Sends(now)) == RequestsIn(log) + now
  {
    RequestsInConcat(log + CommitOf(commits), Sends(now));
    RequestsInConcat(log, CommitOf(commits));
    RequestsInSends(now);
    NoRequestsInCommit(commits);
  }

  lemma NoRequestsInCommit(commits: bool)
    ensures RequestsIn(CommitOf(commits)) == []
  {
    assert commits ==> CommitOf(commits)[..0] == [];
  }

  lemma StreamRequests(t: Trigger, turnId: string, segments: seq<string>, ms: seq<Message>)
    requires segments != []
    ensures RequestsIn(DeliverEach(FRESH, t, turnId, segments, ms).log)
            == RequestsIn(DeliverEach(FRESH, t, turnId, segments[..|segments| - 1], ms).log)
               + ReplyDeliveryRequests(t, turnId, [segments[|segments| - 1]], ms, |segments|)
  {
    var p := DeliverEach(FRESH, t, turnId, segments[..|segments| - 1], ms);
    CountDelivered(t, turnId, segments[..|segments| - 1], ms);
    assert DeliverEach(FRESH, t, turnId, segments, ms).log
           == DeliverOne(p, t, turnId, segments[|segments| - 1], ms).log;
    RequestsInDelivered(p, t, turnId, segments[|segments| - 1], ms);
  }

  lemma {:induction false} CountDelivered(t: Trigger, turnId: string, segments: seq<string>, ms: seq<Message>)
    ensures DeliverEach(FRESH, t, turnId, segments, ms).count == |segments|
  {
    if segments != [] {
      CountDelivered(t, turnId, segments[..|segments| - 1], ms);
    }
  }

  /** The requests streamed segment by segment are the batch's, in order, exactly when there is
      one recipient or at most one segment. */
  lemma StreamIsBatchIff(t: Trigger, turnId: string, segments: seq<string>, ms: seq<Message>)
    ensures RequestsIn(DeliverEach(FRESH, t, turnId, segments, ms).log)
            == ReplyDeliveryRequests(t, turnId, segments, ms, 1)
            <==> |RecipientAccountIds(t)| == 1 || |segments| <= 1
  {
    var accounts := RecipientAccountIds(t);
    if |accounts| == 1 {
      StreamForOne(t, turnId, segments, ms);
    } else if segments == [] {
      NoSegmentsNoRequests(t, turnId, accounts, true, ms, 1);
    } else if |segments| == 1 {
      StreamRequests(t, turnId, segments, ms);
      assert [segments[0]] == segments && segments[..0] == [];
    } else {
      StreamDiffers(t, turnId, segments, ms);
    }
  }

  lemma StreamForOne(t: Trigger, turnId: string, segments: seq<string>, ms: seq<Message>)
    requires |RecipientAccountIds(t)| == 1
    ensures RequestsIn(DeliverEach(FRESH, t, turnId, segments, ms).log)
            == ReplyDeliveryRequests(t, turnId, segments, ms, 1)
  {
    StreamIsBatch(t, turnId, segments, ms);
    var batch := ReplyDeliveryRequests(t, turnId, segments, ms, 1);
    var commits := segments != [] && ms != [];
    RequestsInSends(batch);
    RequestsInConcat(CommitOf(commits), Sends(batch));
    NoRequestsInCommit(commits);
  }

  /** Two recipients, two segments: the stream's second request goes to the second recipient. */
  lemma StreamDiffers(t: Trigger, turnId: string, segments: seq<string>, ms: seq<Message>)
    requires |RecipientAccountIds(t)| > 1 && |segments| > 1
    ensures RequestsIn(DeliverEach(FRESH, t, turnId, segments, ms).log)
            != ReplyDeliveryRequests(t, turnId, segments, ms, 1)
  {
    var accounts := RecipientAccountIds(t);
    SecondStreamed(t, turnId, segments, ms);
    assert RequestsTo(t, turnId, accounts[0], true, segments, ms, 1)[1].account == accounts[0];
  }

  lemma {:induction false} SecondStreamed(t: Trigger, turnId: string, segments: seq<string>, ms: seq<Message>)
    requires |RecipientAccountIds(t)| > 1 && segments != []
    ensures var sent := RequestsIn(DeliverEach(FRESH, t, turnId, segments, ms).log);
            |sent| > 1 && sent[1].account == RecipientAccountIds(t)[1]
  {
    StreamRequests(t, turnId, segments, ms);
    if |segments| > 1 {
      SecondStreamed(t, turnId, segments[..|segments| - 1], ms);
    } else {
      var accounts := RecipientAccountIds(t);
      assert segments[..0] == [];
      assert accounts[1..][0] == accounts[1];
      assert RequestsToAll(t, turnId, accounts[1..], true, [segments[0]], ms, 1)[0].account == accounts[1];
    }
  }

  /** An inbound turn that streamed its first `k` segments and then finishes from the validated
      output has sent exactly the batch: each segment once, under the same key. */
  lemma StreamThenRestIsBatch(t: Trigger, turnId: string, segments: seq<string>, ms: seq<Message>, k: nat)
    requires t.triggerType.InboundTurn? && k <= |segments|
    ensures RequestsIn(DeliverEach(FRESH, t, turnId, segments[..k], ms).log)
            + RemainingRequests(t, turnId, segments, k, ms)
            == ReplyDeliveryRequests(t, turnId, segments, ms, 1)
  {
    StreamForOne(t, turnId, segments[..k], ms);
    SplitForOne(t, turnId, segments, ms, 1, k);
  }

  /** A system turn sends one message to each recipient, however many segments were validated. */
  lemma SystemTurnSendsOneEach(t: Trigger, turnId: string, validated: seq<string>, ms: seq<Message>)
    requires !t.triggerType.InboundTurn? && validated != []
    ensures var requests := RemainingRequests(t, turnId, validated, 0, ms); var accounts := RecipientAccountIds(t);
            && |requests| == |accounts|
            && forall a :: 0 <= a < |accounts| ==>
              requests[a].account == accounts[a] && requests[a].text == Joined(validated)
  {
    var segments := DeliverySegments(t, validated);
    assert segments == [Joined(validated)] && segments[0..] == segments;
    OneEach(t, turnId, RecipientAccountIds(t), |RecipientAccountIds(t)| > 1, Joined(validated), ms);
  }

  lemma {:induction false} OneEach(t: Trigger, turnId: string, accounts: seq<string>, multiple: bool, text: string,
                                   ms: seq<Message>)
    ensures var requests := RequestsToAll(t, turnId, accounts, multiple, [text], ms, 1);
            && |requests| == |accounts|
            && forall a :: 0 <= a < |accounts| ==> requests[a].account == accounts[a] && requests[a].text == text
  {
    if accounts != [] {
      OneEach(t, turnId, accounts[1..], multiple, text, ms);
      assert forall a :: 0 < a < |accounts| ==> accounts[a] == accounts[1..][a - 1];
    }
  }

  // --------------------------------------------------------------------- the objects

  class TurnRunner {
    var log: seq<Event>

    constructor ()
      ensures log == []
    {
      log := [];
    }

    method CommitCloseBoundary()
      modifies this
      ensures log == old(log) + [Commit]
    {
      log := log + [Commit];
    }

    method SendAll(requests: seq<Request>)
      modifies this
      ensures log == old(log) + Sends(requests)
    {
      for i := 0 to |requests|
        invariant log == old(log) + Sends(requests)[..i]
      {
        log := log + [Sent(requests[i])];
      }
    }

    /** The delivery part of `_record_validated_output`. */
    method RecordValidatedOutput(t: Trigger, turnId: string, validated: seq<string>, skip: nat, stored: seq<Message>)
      modifies this
      ensures log == old(log) + [Commit]
              + Sends(RemainingRequests(t, turnId, validated, skip, OutboundMessages(Some(stored))))
    {
      CommitCloseBoundary();
      var requests := BuildRemaining(t, turnId, validated, skip, OutboundMessages(Some(stored)));
      SendAll(requests);
    }

    method BuildRemaining(t: Trigger, turnId: string, validated: seq<string>, skip: nat, ms: seq<Message>)
      returns (requests: seq<Request>)
      ensures requests == RemainingRequests(t, turnId, validated, skip, ms)
    {
      var segments := DeliverySegments(t, validated);
      var remaining := if skip <= |segments| then segments[skip..] else [];
      requests := BuildReplyDeliveryRequests(t, turnId, remaining, ms, skip + 1);
    }
  }

  class TurnPipelineRunnerDelivery {
    const runner: TurnRunner
    const trigger: Trigger
    var deliveredSegmentCount: nat
    var closeBoundaryCommitted: bool

    constructor (runner: TurnRunner, trigger: Trigger)
      ensures this.runner == runner && this.trigger == trigger
      ensures deliveredSegmentCount == 0 && !closeBoundaryCommitted
    {
      this.runner := runner;
      this.trigger := trigger;
      deliveredSegmentCount := 0;
      closeBoundaryCommitted := false;
    }

    method Deliver(turnId: string, segment: string, stored: Option<seq<Message>>)
      modifies this, runner
      ensures var p := DeliverOne(Port(old(deliveredSegmentCount), old(closeBoundaryCommitted), old(runner.log)),
                trigger, turnId, segment, OutboundMessages(stored));
              deliveredSegmentCount == p.count && closeBoundaryCommitted == p.closeCommitted && runner.log == p.log
    {
      deliveredSegmentCount := deliveredSegmentCount + 1;
      var ms := OutboundMessages(stored);
      if ms != [] && !closeBoundaryCommitted {
        runner.CommitCloseBoundary();
        closeBoundaryCommitted := true;
      }
      var requests := BuildReplyDeliveryRequests(trigger, turnId, [segment], ms, deliveredSegmentCount);
      runner.SendAll(requests);
    }
  }
}
