/**
  The connector's poll with bounded redelivery (provider_edges/wechat_personal_connector/app.py):
  one poll posts a batch message by message, counts rejections per message, and either keeps
  the cursor (the batch is served again) or moves it.
*/
module ConnectorPoll {
  import opened Options

  const MAX_WEBHOOK_DELIVERY_ATTEMPTS := 5

  /** A message whose payload survived cleaning. */
  datatype Message = Message(id: string, wxid: string, contextToken: string)

  /** What the webhook answered to one post. */
  datatype Response = Accepted | Rejected(error: string)

  datatype Session = Session(
    connected: bool,
    baseUrl: string,
    token: string,
    cursor: string,
    contextTokens: map<string, string>,
    deliveryAttempts: map<string, int>,
    lastPollError: string,
    pollErrorCount: int,
    nextPollAfter: real)

  function DeliveryAttempts(session: Session): map<string, int> {
    map id | id in session.deliveryAttempts && session.deliveryAttempts[id] > 0 :: session.deliveryAttempts[id]
  }

  function PollErrorCount(session: Session): nat {
    if session.pollErrorCount > 0 then session.pollErrorCount else 0
  }

  function Power2(n: nat): nat { if n == 0 then 1 else 2 * Power2(n - 1) }

  function PollRetryDelaySeconds(errorCount: int): (d: real)
    ensures 1.0 <= d <= 32.0
  {
    var exponent := if errorCount - 1 <= 0 then 0 else if errorCount - 1 <= 5 then errorCount - 1 else 5;
    assert Power2(5) == 2 * Power2(4) == 4 * Power2(3) == 8 * Power2(2) == 16 * Power2(1) == 32 * Power2(0);
    if Power2(exponent) <= 60 then Power2(exponent) as real else 60.0
  }

  function WithPollError(session: Session, error: string, now: real): Session {
    var count := PollErrorCount(session) + 1;
    session.(lastPollError := error, pollErrorCount := count, nextPollAfter := now + PollRetryDelaySeconds(count))
  }

  function Deliverable(batch: seq<Option<Message>>): seq<Message> {
    if batch == [] then []
    else if batch[0].None? then Deliverable(batch[1..])
    else [batch[0].value] + Deliverable(batch[1..])
  }

  // ----------------------------------------------------------------- walking one batch

  function Count(attempts: map<string, int>, id: string): int {
    if id in attempts then attempts[id] else 0
  }

  /** Where a walk over the batch ended: at a rejection under the cap, or past the last message. */
  datatype Walk =
    | Stopped(attempts: map<string, int>, tokens: map<string, string>, delivered: nat, error: string)
    | Finished(attempts: map<string, int>, tokens: map<string, string>, delivered: nat)

  function WalkBatch(ms: seq<Message>, rs: seq<Response>, attempts: map<string, int>,
                     tokens: map<string, string>, delivered: nat): Walk
    requires |rs| == |ms|
  {
    if ms == [] then Finished(attempts, tokens, delivered)
    else
      var m := ms[0];
      var tokens' := tokens[m.wxid := m.contextToken];
      var count := Count(attempts, m.id) + 1;
      if rs[0].Rejected? && count < MAX_WEBHOOK_DELIVERY_ATTEMPTS then
        Stopped(attempts[m.id := count], tokens', delivered, rs[0].error)
      else
        WalkBatch(ms[1..], rs[1..], attempts - {m.id}, tokens', if rs[0].Accepted? then delivered + 1 else delivered)
  }

  /** One completed fetch: the batch served, the next cursor if any, the webhook's answers. */
  datatype Poll = Poll(batch: seq<Option<Message>>, nextCursor: Option<string>, responses: seq<Response>, now: real)

  predicate ValidPoll(p: Poll) { |p.responses| == |Deliverable(p.batch)| }

  function WalkOf(session: Session, p: Poll): Walk
    requires ValidPoll(p)
  {
    WalkBatch(Deliverable(p.batch), p.responses, DeliveryAttempts(session), session.contextTokens, 0)
  }

  /** The session stored after a poll. */
  function AfterPoll(session: Session, p: Poll): Session
    requires ValidPoll(p)
  {
    if session.baseUrl == "" || session.token == "" then session
    else
      match WalkOf(session, p)
      case Stopped(attempts, tokens, _, error) =>
        WithPollError(session.(contextTokens := tokens, deliveryAttempts := attempts), error, p.now)
      case Finished(attempts, tokens, _) =>
        var saved := session.(contextTokens := tokens, deliveryAttempts := attempts, lastPollError := "");
        var moved := if p.nextCursor.Some? then saved.(cursor := p.nextCursor.value) else saved;
        if session.pollErrorCount != 0 then moved.(pollErrorCount := 0, nextPollAfter := 0.0) else moved
  }

  // --------------------------------------------------------- the counters as an odometer

  function Power5(n: nat): (r: nat)
    ensures r >= 1
  {
    if n == 0 then 1 else 5 * Power5(n - 1)
  }

  function Digit(attempts: map<string, int>, id: string): nat {
    var c := Count(attempts, id);
    if c <= 0 then 0 else if c < 4 then c else 4
  }

  /** The counters of the batch read as base-5 digits, the first message the lowest. */
  function Odometer(ms: seq<Message>, attempts: map<string, int>): (r: nat)
    ensures r < Power5(|ms|)
  {
    if ms == [] then 0 else Digit(attempts, ms[0].id) + 5 * Odometer(ms[1..], attempts)
  }

  predicate DistinctIds(ms: seq<Message>) {
    forall i, j :: 0 <= i < j < |ms| ==> ms[i].id != ms[j].id
  }

  predicate Mentions(ms: seq<Message>, id: string) {
    exists k :: 0 <= k < |ms| && ms[k].id == id
  }

  lemma MentionsTail(ms: seq<Message>, id: string)
    requires ms != []
    ensures Mentions(ms, id) <==> ms[0].id == id || Mentions(ms[1..], id)
  {
    if Mentions(ms[1..], id) {
      var k :| 0 <= k < |ms[1..]| && ms[1..][k].id == id;
      assert ms[k + 1].id == id;
    }
    if Mentions(ms, id) && ms[0].id != id {
      var k :| 0 <= k < |ms| && ms[k].id == id;
      assert ms[1..][k - 1].id == id;
    }
  }

  lemma {:induction false} OdometerFrame(ms: seq<Message>, a: map<string, int>, b: map<string, int>)
    requires forall id :: Mentions(ms, id) ==> Count(a, id) == Count(b, id)
    ensures Odometer(ms, a) == Odometer(ms, b)
    decreases |ms|
  {
    if ms != [] {
      assert Mentions(ms, ms[0].id);
      forall id | Mentions(ms[1..], id) ensures Mentions(ms, id) {
        MentionsTail(ms, id);
      }
      OdometerFrame(ms[1..], a, b);
    }
  }

  /** A walk touches only the counters of the messages of the batch. */
  lemma {:induction false} WalkFrame(ms: seq<Message>, rs: seq<Response>, attempts: map<string, int>,
                                     tokens: map<string, string>, delivered: nat, id: string)
    requires |rs| == |ms| && !Mentions(ms, id)
    ensures var after := WalkBatch(ms, rs, attempts, tokens, delivered).attempts;
            (id in after <==> id in attempts) && Count(after, id) == Count(attempts, id)
    decreases |ms|
  {
    if ms != [] {
      MentionsTail(ms, id);
      var m := ms[0];
      WalkFrame(ms[1..], rs[1..], attempts - {m.id}, tokens[m.wxid := m.contextToken],
                if rs[0].Accepted? then delivered + 1 else delivered, id);
    }
  }

  predicate AllRejected(rs: seq<Response>) { forall k :: 0 <= k < |rs| ==> rs[k].Rejected? }

  predicate NonNegative(attempts: map<string, int>) { forall id :: id in attempts ==> attempts[id] > 0 }

  lemma TailDistinct(ms: seq<Message>)
    requires ms != [] && DistinctIds(ms)
    ensures DistinctIds(ms[1..]) && !Mentions(ms[1..], ms[0].id)
  {
  }

  /** The walk of the tail after the first message of a batch was accepted or dropped. */
  lemma OdometerTail(ms: seq<Message>, attempts: map<string, int>)
    requires ms != [] && DistinctIds(ms)
    ensures Odometer(ms[1..], attempts - {ms[0].id}) == Odometer(ms[1..], attempts)
  {
    TailDistinct(ms);
    forall id | Mentions(ms[1..], id) ensures Count(attempts - {ms[0].id}, id) == Count(attempts, id) {
      assert id != ms[0].id;
    }
    OdometerFrame(ms[1..], attempts - {ms[0].id}, attempts);
  }

  /** A poll that keeps the cursor turns the odometer forward, by exactly one when every post
      is rejected; a poll that rejects everything moves the cursor only from the last reading. */
  lemma {:induction false} WalkTurnsOdometer(ms: seq<Message>, rs: seq<Response>, attempts: map<string, int>,
                                             tokens: map<string, string>, delivered: nat)
    requires |rs| == |ms| && DistinctIds(ms) && NonNegative(attempts)
    ensures var w := WalkBatch(ms, rs, attempts, tokens, delivered);
            && (w.Stopped? ==> Odometer(ms, w.attempts) > Odometer(ms, attempts))
            && (AllRejected(rs) ==>
                 if w.Stopped? then Odometer(ms, w.attempts) == Odometer(ms, attempts) + 1
                 else Odometer(ms, attempts) == Power5(|ms|) - 1)
    decreases |ms|
  {
    if ms != [] {
      var m := ms[0];
      var w := WalkBatch(ms, rs, attempts, tokens, delivered);
      var count := Count(attempts, m.id) + 1;
      TailDistinct(ms);
      if rs[0].Rejected? && count < MAX_WEBHOOK_DELIVERY_ATTEMPTS {
        forall id | Mentions(ms[1..], id) ensures Count(w.attempts, id) == Count(attempts, id) {
          assert id != m.id;
        }
        OdometerFrame(ms[1..], w.attempts, attempts);
        assert Digit(w.attempts, m.id) == Digit(attempts, m.id) + 1;
      } else {
        var tokens' := tokens[m.wxid := m.contextToken];
        var delivered' := if rs[0].Accepted? then delivered + 1 else delivered;
        WalkTurnsOdometer(ms[1..], rs[1..], attempts - {m.id}, tokens', delivered');
        WalkFrame(ms[1..], rs[1..], attempts - {m.id}, tokens', delivered', m.id);
        OdometerTail(ms, attempts);
        assert Digit(w.attempts, m.id) == 0;
        if AllRejected(rs) {
          assert rs[0].Rejected?;
          assert Digit(attempts, m.id) == 4;
        }
      }
    }
  }

  // ------------------------------------------------------------- serving a batch again

  /** The batch is served again and again with these answers; does some poll move past it? */
  predicate SomePollFinishes(session: Session, polls: seq<Poll>)
    requires forall k :: 0 <= k < |polls| ==> ValidPoll(polls[k])
    decreases |polls|
  {
    polls != [] && (WalkOf(session, polls[0]).Finished? || SomePollFinishes(AfterPoll(session, polls[0]), polls[1..]))
  }

  /** How many polls keep the cursor before the first one that does not. */
  function PollsKept(session: Session, polls: seq<Poll>): (n: nat)
    requires forall k :: 0 <= k < |polls| ==> ValidPoll(polls[k])
    ensures n <= |polls|
    ensures SomePollFinishes(session, polls) <==> n < |polls|
    decreases |polls|
  {
    if polls == [] || WalkOf(session, polls[0]).Finished? then 0
    else 1 + PollsKept(AfterPoll(session, polls[0]), polls[1..])
  }

  /** Every poll serves the same deliverable messages, whatever else changes. */
  predicate Serves(polls: seq<Poll>, ms: seq<Message>) {
    forall k :: 0 <= k < |polls| ==> ValidPoll(polls[k]) && Deliverable(polls[k].batch) == ms
  }

  predicate HasCredentials(session: Session) { session.baseUrl != "" && session.token != "" }

  lemma {:induction false} WalkNonNegative(ms: seq<Message>, rs: seq<Response>, attempts: map<string, int>,
                                           tokens: map<string, string>, delivered: nat)
    requires |rs| == |ms| && NonNegative(attempts)
    ensures NonNegative(WalkBatch(ms, rs, attempts, tokens, delivered).attempts)
    decreases |ms|
  {
    if ms != [] {
      WalkNonNegative(ms[1..], rs[1..], attempts - {ms[0].id}, tokens[ms[0].wxid := ms[0].contextToken],
                      if rs[0].Accepted? then delivered + 1 else delivered);
    }
  }

  /** What is read back after a poll is what the walk left. */
  lemma AttemptsRoundTrip(session: Session, p: Poll)
    requires ValidPoll(p) && HasCredentials(session)
    ensures DeliveryAttempts(AfterPoll(session, p)) == WalkOf(session, p).attempts
  {
    WalkNonNegative(Deliverable(p.batch), p.responses, DeliveryAttempts(session), session.contextTokens, 0);
  }

  /** The polls that keep the cursor never outnumber the readings the odometer has left. */
  lemma {:induction false} PollsKeptBounded(session: Session, ms: seq<Message>, polls: seq<Poll>)
    requires Serves(polls, ms) && DistinctIds(ms) && HasCredentials(session)
    ensures Odometer(ms, DeliveryAttempts(session)) + PollsKept(session, polls) < Power5(|ms|)
    decreases |polls|
  {
    if polls != [] && WalkOf(session, polls[0]).Stopped? {
      var p := polls[0];
      AttemptsRoundTrip(session, p);
      WalkTurnsOdometer(ms, p.responses, DeliveryAttempts(session), session.contextTokens, 0);
      PollsKeptBounded(AfterPoll(session, p), ms, polls[1..]);
    }
  }

  /** Cursor progress: with distinct ids, whatever the webhook does, one of any 5^n polls of a
      batch of n deliverable messages moves past it. */
  lemma CursorAdvances(session: Session, ms: seq<Message>, polls: seq<Poll>)
    requires Serves(polls, ms) && DistinctIds(ms) && HasCredentials(session)
    requires |polls| >= Power5(|ms|)
    ensures SomePollFinishes(session, polls)
  {
    PollsKeptBounded(session, ms, polls);
  }

  /** The bound is reached: from empty counters, rejecting every post keeps the cursor for
      exactly 5^n - 1 polls, so the poll that moves it is number 5^n. */
  lemma {:induction false} AllRejectedKeepsLongest(session: Session, ms: seq<Message>, polls: seq<Poll>)
    requires Serves(polls, ms) && DistinctIds(ms) && HasCredentials(session)
    requires forall k :: 0 <= k < |polls| ==> AllRejected(polls[k].responses)
    requires |polls| + Odometer(ms, DeliveryAttempts(session)) >= Power5(|ms|)
    ensures PollsKept(session, polls) == Power5(|ms|) - 1 - Odometer(ms, DeliveryAttempts(session))
    decreases |polls|
  {
    if polls != [] {
      var p := polls[0];
      AttemptsRoundTrip(session, p);
      WalkTurnsOdometer(ms, p.responses, DeliveryAttempts(session), session.contextTokens, 0);
      if WalkOf(session, p).Stopped? {
        AllRejectedKeepsLongest(AfterPoll(session, p), ms, polls[1..]);
      }
    }
  }

  lemma {:induction false} EmptyOdometer(ms: seq<Message>, attempts: map<string, int>)
    requires forall id :: Mentions(ms, id) ==> id !in attempts
    ensures Odometer(ms, attempts) == 0
    decreases |ms|
  {
    if ms != [] {
      assert Mentions(ms, ms[0].id);
      forall id | Mentions(ms[1..], id) ensures Mentions(ms, id) {
        MentionsTail(ms, id);
      }
      EmptyOdometer(ms[1..], attempts);
    }
  }

  // --------------------------------------------------- why the ids have to be distinct

  /** Rejecting every post never gets past the second message with the same id. */
  lemma {:induction false} RepeatedIdStops(ms: seq<Message>, rs: seq<Response>, attempts: map<string, int>,
                                           tokens: map<string, string>, delivered: nat, i: nat, j: nat)
    requires |rs| == |ms| && AllRejected(rs)
    requires i < j < |ms| && ms[i].id == ms[j].id
    ensures WalkBatch(ms, rs, attempts, tokens, delivered).Stopped?
    decreases |ms|
  {
    var m := ms[0];
    assert rs[0].Rejected?;
    if Count(attempts, m.id) + 1 >= MAX_WEBHOOK_DELIVERY_ATTEMPTS {
      var tokens' := tokens[m.wxid := m.contextToken];
      if i > 0 {
        RepeatedIdStops(ms[1..], rs[1..], attempts - {m.id}, tokens', delivered, i - 1, j - 1);
      } else {
        UncountedStops(ms[1..], rs[1..], attempts - {m.id}, tokens', delivered, j - 1);
      }
    }
  }

  lemma {:induction false} UncountedStops(ms: seq<Message>, rs: seq<Response>, attempts: map<string, int>,
                                          tokens: map<string, string>, delivered: nat, j: nat)
    requires |rs| == |ms| && AllRejected(rs) && j < |ms|
    requires ms[j].id !in attempts
    ensures WalkBatch(ms, rs, attempts, tokens, delivered).Stopped?
    decreases |ms|
  {
    assert rs[0].Rejected?;
    if j > 0 && Count(attempts, ms[0].id) + 1 >= MAX_WEBHOOK_DELIVERY_ATTEMPTS {
      UncountedStops(ms[1..], rs[1..], attempts - {ms[0].id}, tokens[ms[0].wxid := ms[0].contextToken], delivered,
        j - 1);
    }
  }

  lemma {:induction false} RepeatedIdNeverFinishes(session: Session, ms: seq<Message>, polls: seq<Poll>, i: nat, j: nat)
    requires Serves(polls, ms) && forall k :: 0 <= k < |polls| ==> AllRejected(polls[k].responses)
    requires i < j < |ms| && ms[i].id == ms[j].id
    ensures !SomePollFinishes(session, polls)
    decreases |polls|
  {
    if polls != [] {
      var p := polls[0];
      RepeatedIdStops(ms, p.responses, DeliveryAttempts(session), session.contextTokens, 0, i, j);
      RepeatedIdNeverFinishes(AfterPoll(session, p), ms, polls[1..], i, j);
    }
  }

  /** Whatever the webhook answers, enough polls of these messages get past them. */
  ghost predicate AlwaysAdvances(ms: seq<Message>) {
    forall session, polls :: Serves(polls, ms) && HasCredentials(session) && |polls| >= Power5(|ms|) ==>
      SomePollFinishes(session, polls)
  }

  function RejectingPolls(ms: seq<Message>, n: nat): seq<Poll> {
    seq(n, _ => Poll(seq(|ms|, k requires 0 <= k < |ms| => Some(ms[k])), None, seq(|ms|, _ => Rejected("down")), 0.0))
  }

  lemma {:induction false} DeliverableOfAll(ms: seq<Message>, batch: seq<Option<Message>>)
    requires |batch| == |ms| && forall k :: 0 <= k < |ms| ==> batch[k] == Some(ms[k])
    ensures Deliverable(batch) == ms
    decreases |ms|
  {
    if ms != [] {
      DeliverableOfAll(ms[1..], batch[1..]);
    }
  }

  /** Progress holds of a batch exactly when its deliverable messages have distinct ids. */
  lemma AdvancesIffDistinct(ms: seq<Message>)
    ensures AlwaysAdvances(ms) <==> DistinctIds(ms)
  {
    if DistinctIds(ms) {
      forall session, polls | Serves(polls, ms) && HasCredentials(session) && |polls| >= Power5(|ms|)
        ensures SomePollFinishes(session, polls)
      {
        CursorAdvances(session, ms, polls);
      }
    } else {
      var i, j :| 0 <= i < j < |ms| && ms[i].id == ms[j].id;
      var session := Session(true, "url", "token", "", map[], map[], "", 0, 0.0);
      var polls := RejectingPolls(ms, Power5(|ms|));
      DeliverableOfAll(ms, polls[0].batch);
      assert Serves(polls, ms);
      RepeatedIdNeverFinishes(session, ms, polls, i, j);
    }
  }

  // ----------------------------------------------------------------- nothing is skipped

  /** Rejections in a row of `id` after one walk, `before` of them before it: an accepted post ends
      the row, a rejected one adds to it, dropping the message does neither. */
  function RowAfterWalk(ms: seq<Message>, rs: seq<Response>, attempts: map<string, int>, id: string, before: nat): nat
    requires |rs| == |ms|
  {
    if ms == [] then before
    else
      var row := if ms[0].id != id then before else if rs[0].Accepted? then 0 else before + 1;
      if rs[0].Rejected? && Count(attempts, ms[0].id) + 1 < MAX_WEBHOOK_DELIVERY_ATTEMPTS then row
      else RowAfterWalk(ms[1..], rs[1..], attempts - {ms[0].id}, id, row)
  }

  /** Rejections in a row of `id` at the end of a run that serves the same messages. */
  function RejectedInARow(session: Session, ms: seq<Message>, polls: seq<Poll>, id: string, before: nat): nat
    requires Serves(polls, ms)
    decreases |polls|
  {
    if polls == [] then before
    else
      RejectedInARow(AfterPoll(session, polls[0]), ms, polls[1..], id,
                     RowAfterWalk(ms, polls[0].responses, DeliveryAttempts(session), id, before))
  }

  /** A counter never runs ahead of the rejections in a row, and a message is dropped only at the
      cap. */
  lemma {:induction false} WalkCounts(ms: seq<Message>, rs: seq<Response>, attempts: map<string, int>,
                                      tokens: map<string, string>, delivered: nat, k: nat, before: nat)
    requires |rs| == |ms| && DistinctIds(ms) && k < |ms| && NonNegative(attempts)
    requires Count(attempts, ms[k].id) <= before
    ensures var w := WalkBatch(ms, rs, attempts, tokens, delivered);
            var row := RowAfterWalk(ms, rs, attempts, ms[k].id, before);
            && Count(w.attempts, ms[k].id) <= row
            && (w.Finished? ==> ms[k].id !in w.attempts)
            && (w.Finished? && rs[k].Rejected? ==> row >= MAX_WEBHOOK_DELIVERY_ATTEMPTS)
    decreases |ms|
  {
    var m := ms[0];
    var tokens' := tokens[m.wxid := m.contextToken];
    var delivered' := if rs[0].Accepted? then delivered + 1 else delivered;
    TailDistinct(ms);
    if rs[0].Rejected? && Count(attempts, m.id) + 1 < MAX_WEBHOOK_DELIVERY_ATTEMPTS {
    } else if k == 0 {
      var row := if rs[0].Accepted? then 0 else before + 1;
      WalkFrame(ms[1..], rs[1..], attempts - {m.id}, tokens', delivered', m.id);
      RowUnmentioned(ms[1..], rs[1..], attempts - {m.id}, m.id, row);
    } else {
      assert ms[0].id != ms[k].id;
      WalkCounts(ms[1..], rs[1..], attempts - {m.id}, tokens', delivered', k - 1, before);
    }
  }

  lemma {:induction false} RowUnmentioned(ms: seq<Message>, rs: seq<Response>, attempts: map<string, int>, id: string,
                                          before: nat)
    requires |rs| == |ms| && !Mentions(ms, id)
    ensures RowAfterWalk(ms, rs, attempts, id, before) == before
    decreases |ms|
  {
    if ms != [] {
      MentionsTail(ms, id);
      RowUnmentioned(ms[1..], rs[1..], attempts - {ms[0].id}, id, before);
    }
  }

  /** No message is skipped early: when the last poll of a run moves past the batch, every message
      was accepted by it, or had been rejected at least five times with no acceptance between; and
      no message of the batch keeps a counter. `before` are its rejections in a row before the run;
      from empty counters it can be zero. */
  lemma {:induction false} NothingSkippedEarly(session: Session, ms: seq<Message>, polls: seq<Poll>, k: nat,
                                               before: nat)
    requires Serves(polls, ms) && DistinctIds(ms) && HasCredentials(session) && k < |ms|
    requires polls != [] && PollsKept(session, polls) == |polls| - 1
    requires Count(DeliveryAttempts(session), ms[k].id) <= before
    ensures polls[|polls| - 1].responses[k].Accepted?
         || RejectedInARow(session, ms, polls, ms[k].id, before) >= MAX_WEBHOOK_DELIVERY_ATTEMPTS
    ensures ms[k].id !in DeliveryAttempts(LastSession(session, polls))
    decreases |polls|
  {
    var p := polls[0];
    var row := RowAfterWalk(ms, p.responses, DeliveryAttempts(session), ms[k].id, before);
    AttemptsRoundTrip(session, p);
    WalkCounts(ms, p.responses, DeliveryAttempts(session), session.contextTokens, 0, k, before);
    if |polls| > 1 {
      NothingSkippedEarly(AfterPoll(session, p), ms, polls[1..], k, row);
    } else {
      assert polls[1..] == [];
    }
  }

  function LastSession(session: Session, polls: seq<Poll>): Session
    requires forall k :: 0 <= k < |polls| ==> ValidPoll(polls[k])
    decreases |polls|
  {
    if polls == [] then session else LastSession(AfterPoll(session, polls[0]), polls[1..])
  }

  predicate SuppliesCursors(polls: seq<Poll>) {
    forall k :: 0 <= k < |polls| ==> polls[k].nextCursor.Some?
  }

  /** The stored cursor stays where it was through the polls kept. */
  lemma {:induction false} CursorStays(session: Session, ms: seq<Message>, polls: seq<Poll>, j: nat)
    requires Serves(polls, ms) && HasCredentials(session) && j <= PollsKept(session, polls)
    ensures LastSession(session, polls[..j]).cursor == session.cursor
    decreases |polls|
  {
    if j > 0 {
      assert polls[..j][1..] == polls[1..][..j - 1];
      CursorStays(AfterPoll(session, polls[0]), ms, polls[1..], j - 1);
    }
  }

  /** The first poll that finishes stores the next cursor it was given. */
  lemma {:induction false} CursorMoves(session: Session, ms: seq<Message>, polls: seq<Poll>)
    requires Serves(polls, ms) && HasCredentials(session) && SuppliesCursors(polls) && SomePollFinishes(session, polls)
    ensures var k := PollsKept(session, polls); LastSession(session, polls[..k + 1]).cursor == polls[k].nextCursor.value
    decreases |polls|
  {
    var k := PollsKept(session, polls);
    assert polls[..k + 1][1..] == polls[1..][..k];
    if k > 0 {
      CursorMoves(AfterPoll(session, polls[0]), ms, polls[1..]);
    } else {
      assert polls[1..][..0] == [];
    }
  }

  /** Cursor progress in full: with distinct ids and a next cursor supplied, whatever the webhook
      does, one of any 5^n polls stores the next cursor, and until then the cursor stays. */
  lemma CursorMovesWithin(session: Session, ms: seq<Message>, polls: seq<Poll>) returns (k: nat)
    requires Serves(polls, ms) && DistinctIds(ms) && HasCredentials(session) && SuppliesCursors(polls)
    requires |polls| >= Power5(|ms|)
    ensures k < Power5(|ms|) && LastSession(session, polls[..k + 1]).cursor == polls[k].nextCursor.value
    ensures forall j :: 0 <= j <= k ==> LastSession(session, polls[..j]).cursor == session.cursor
  {
    CursorAdvances(session, ms, polls);
    PollsKeptBounded(session, ms, polls);
    k := PollsKept(session, polls);
    forall j | 0 <= j <= k ensures LastSession(session, polls[..j]).cursor == session.cursor {
      CursorStays(session, ms, polls, j);
    }
    CursorMoves(session, ms, polls);
  }

  predicate CountersInRange(attempts: map<string, int>) {
    forall id :: id in attempts ==> 1 <= attempts[id] < MAX_WEBHOOK_DELIVERY_ATTEMPTS
  }

  lemma {:induction false} WalkKeepsRange(ms: seq<Message>, rs: seq<Response>, attempts: map<string, int>,
                                          tokens: map<string, string>, delivered: nat)
    requires |rs| == |ms| && CountersInRange(attempts)
    ensures CountersInRange(WalkBatch(ms, rs, attempts, tokens, delivered).attempts)
    decreases |ms|
  {
    if ms != [] {
      WalkKeepsRange(ms[1..], rs[1..], attempts - {ms[0].id}, tokens[ms[0].wxid := ms[0].contextToken],
                     if rs[0].Accepted? then delivered + 1 else delivered);
    }
  }

  /** Over any run of polls of any batches, stored counters stay between 1 and 4. */
  lemma {:induction false} StoredCountersInRange(session: Session, polls: seq<Poll>)
    requires forall k :: 0 <= k < |polls| ==> ValidPoll(polls[k])
    requires CountersInRange(session.deliveryAttempts)
    ensures CountersInRange(LastSession(session, polls).deliveryAttempts)
    decreases |polls|
  {
    if polls != [] {
      var p := polls[0];
      WalkKeepsRange(Deliverable(p.batch), p.responses, DeliveryAttempts(session), session.contextTokens, 0);
      StoredCountersInRange(AfterPoll(session, p), polls[1..]);
    }
  }

  // -------------------------------------------------------------- the stored sessions

  type SessionId(==, !new)

  /** What fetching updates brought for a session. */
  datatype Fetch = Fetched(poll: Poll) | FetchFailed(error: string, expired: bool, at: real)

  predicate ValidFetch(f: Fetch) { f.Fetched? ==> ValidPoll(f.poll) }

  /** The share of one session in `poll_once` at time `now`. */
  function PollSession(session: Session, f: Fetch, now: real): Session
    requires ValidFetch(f)
  {
    if !session.connected || session.nextPollAfter > now || !HasCredentials(session) then session
    else
      match f
      case Fetched(poll) => AfterPoll(session, poll)
      case FetchFailed(error, expired, at) =>
        var failed := WithPollError(session, error, at);
        if expired then failed.(connected := false, token := "", cursor := "", contextTokens := map[]) else failed
  }

  /** From `before` to `after` a failed fetch was recorded: the error, and when to try again; and if
      the session had expired it is disconnected and nothing it could be polled with is left. */
  predicate FailureRecorded(before: Session, after: Session, error: string, expired: bool, at: real) {
    && after.lastPollError == error
    && after.pollErrorCount == (if before.pollErrorCount > 0 then before.pollErrorCount else 0) + 1
    && at + 1.0 <= after.nextPollAfter <= at + 32.0
    && after.baseUrl == before.baseUrl && after.deliveryAttempts == before.deliveryAttempts
    && (if expired then !after.connected && after.token == "" && after.cursor == "" && after.contextTokens == map[]
        else after.connected == before.connected && after.token == before.token && after.cursor == before.cursor
             && after.contextTokens == before.contextTokens)
  }

  /** How many messages that share delivers. */
  function DeliveredBy(session: Session, f: Fetch, now: real): nat
    requires ValidFetch(f)
  {
    if !session.connected || session.nextPollAfter > now || !HasCredentials(session) || f.FetchFailed? then 0
    else WalkOf(session, f.poll).delivered
  }

  /** What a session meets when its turn comes: the time, and what fetching brings. */
  datatype Turn = Turn(fetch: Fetch, now: real)

  function TakeTurn(session: Session, turn: Turn): Session
    requires ValidFetch(turn.fetch)
  {
    PollSession(session, turn.fetch, turn.now)
  }

  /** Every session named in `order` can take its turn. */
  predicate Ready(sessions: map<SessionId, Session>, turns: map<SessionId, Turn>, order: seq<SessionId>) {
    forall k :: 0 <= k < |order| ==> order[k] in sessions && order[k] in turns && ValidFetch(turns[order[k]].fetch)
  }

  /** The sessions after the turns in `order`, one after another. */
  function AfterTurns(sessions: map<SessionId, Session>, turns: map<SessionId, Turn>,
                      order: seq<SessionId>): (r: map<SessionId, Session>)
    requires Ready(sessions, turns, order)
    ensures r.Keys == sessions.Keys
  {
    if order == [] then sessions
    else
      var before := AfterTurns(sessions, turns, order[..|order| - 1]);
      var id := order[|order| - 1];
      before[id := TakeTurn(before[id], turns[id])]
  }

  /** The deliveries of these turns. */
  function TotalDelivered(sessions: map<SessionId, Session>, turns: map<SessionId, Turn>, order: seq<SessionId>): nat
    requires Ready(sessions, turns, order)
  {
    if order == [] then 0
    else
      var init := order[..|order| - 1];
      var id := order[|order| - 1];
      TotalDelivered(sessions, turns, init)
        + DeliveredBy(AfterTurns(sessions, turns, init)[id], turns[id].fetch, turns[id].now)
  }

  /** A walk over distinct sessions gives each its own turn and leaves the others alone. */
  lemma {:induction false} TurnsAreIndependent(sessions: map<SessionId, Session>, turns: map<SessionId, Turn>,
                                               order: seq<SessionId>, id: SessionId)
    requires Ready(sessions, turns, order) && id in sessions
    requires forall i, j :: 0 <= i < j < |order| ==> order[i] != order[j]
    ensures AfterTurns(sessions, turns, order)[id] ==
            if id in order then TakeTurn(sessions[id], turns[id]) else sessions[id]
  {
    if order != [] {
      var init := order[..|order| - 1];
      assert order == init + [order[|order| - 1]];
      TurnsAreIndependent(sessions, turns, init, id);
    }
  }

  /** After a rejection the session is left alone for between 1 and 32 seconds. */
  lemma BackoffBounded(session: Session, p: Poll, f: Fetch, now: real)
    requires ValidPoll(p) && ValidFetch(f) && HasCredentials(session) && WalkOf(session, p).Stopped?
    ensures now < p.now + 1.0 ==> PollSession(AfterPoll(session, p), f, now) == AfterPoll(session, p)
    ensures p.now + 1.0 <= AfterPoll(session, p).nextPollAfter <= p.now + 32.0
    ensures AfterPoll(session, p).cursor == session.cursor
  {
  }

  /** The walk that is still to come when `k` entries were seen and `posts` messages posted. */
  ghost function RestOfWalk(p: Poll, k: nat, posts: nat, attempts: map<string, int>, tokens: map<string, string>,
                            delivered: nat): Walk
    requires k <= |p.batch| && posts <= |p.responses| && |p.responses[posts..]| == |Deliverable(p.batch[k..])|
  {
    WalkBatch(Deliverable(p.batch[k..]), p.responses[posts..], attempts, tokens, delivered)
  }

  lemma RestStep(p: Poll, k: nat, posts: nat, attempts: map<string, int>, tokens: map<string, string>, delivered: nat)
    requires k < |p.batch| && posts <= |p.responses| && |p.responses[posts..]| == |Deliverable(p.batch[k..])|
    ensures p.batch[k].None? ==>
              && |p.responses[posts..]| == |Deliverable(p.batch[k + 1..])|
              && RestOfWalk(p, k, posts, attempts, tokens, delivered)
                == RestOfWalk(p, k + 1, posts, attempts, tokens, delivered)
    ensures p.batch[k].Some? ==>
              var m := p.batch[k].value;
              var count := Count(attempts, m.id) + 1;
              var tokens' := tokens[m.wxid := m.contextToken];
              && posts < |p.responses| && |p.responses[posts + 1..]| == |Deliverable(p.batch[k + 1..])|
              && RestOfWalk(p, k, posts, attempts, tokens, delivered) ==
                 if p.responses[posts].Rejected? && count < MAX_WEBHOOK_DELIVERY_ATTEMPTS
                 then Stopped(attempts[m.id := count], tokens', delivered, p.responses[posts].error)
                 else RestOfWalk(p, k + 1, posts + 1, attempts - {m.id}, tokens',
                                 if p.responses[posts].Accepted? then delivered + 1 else delivered)
  {
    assert p.batch[k..][1..] == p.batch[k + 1..];
    if p.batch[k].Some? {
      var ms := Deliverable(p.batch[k..]);
      assert ms[1..] == Deliverable(p.batch[k + 1..]);
      assert p.responses[posts..][1..] == p.responses[posts + 1..];
    }
  }

  class ConnectorState {
    var sessions: map<SessionId, Session>

    constructor (sessions: map<SessionId, Session>)
      ensures this.sessions == sessions
    {
      this.sessions := sessions;
    }

    /** One poll of a session whose updates were fetched: post each message, in order. */
    method PollSessionOnce(sessionId: SessionId, p: Poll) returns (delivered: nat)
      requires sessionId in sessions && ValidPoll(p)
      modifies this
      ensures sessions == old(sessions)[sessionId := AfterPoll(old(sessions)[sessionId], p)]
      ensures delivered == if HasCredentials(old(sessions)[sessionId])
              then WalkOf(old(sessions)[sessionId], p).delivered else 0
    {
      var session := sessions[sessionId];
      if session.baseUrl == "" || session.token == "" {
        return 0;
      }
      var contextTokens := session.contextTokens;
      var deliveryAttempts := DeliveryAttempts(session);
      delivered := 0;
      var posts := 0;
      for k := 0 to |p.batch|
        invariant sessions == old(sessions)
        invariant posts <= |p.responses| && |p.responses[posts..]| == |Deliverable(p.batch[k..])|
        invariant RestOfWalk(p, k, posts, deliveryAttempts, contextTokens, delivered) == WalkOf(session, p)
      {
        RestStep(p, k, posts, deliveryAttempts, contextTokens, delivered);
        if p.batch[k].None? {
          continue;
        }
        var message := p.batch[k].value;
        contextTokens := contextTokens[message.wxid := message.contextToken];
        var response := p.responses[posts];
        posts := posts + 1;
        if response.Rejected? {
          var attempts := Count(deliveryAttempts, message.id) + 1;
          if attempts < MAX_WEBHOOK_DELIVERY_ATTEMPTS {
            deliveryAttempts := deliveryAttempts[message.id := attempts];
            var stored := session.(contextTokens := contextTokens, deliveryAttempts := deliveryAttempts);
            sessions := sessions[sessionId := WithPollError(stored, response.error, p.now)];
            return;
          }
          deliveryAttempts := deliveryAttempts - {message.id};
          continue;
        }
        deliveryAttempts := deliveryAttempts - {message.id};
        delivered := delivered + 1;
      }
      var saved := session.(contextTokens := contextTokens, deliveryAttempts := deliveryAttempts);
      if p.nextCursor.Some? {
        saved := saved.(cursor := p.nextCursor.value);
      }
      if session.lastPollError != "" {
        saved := saved.(lastPollError := "");
      }
      if session.pollErrorCount != 0 {
        saved := saved.(pollErrorCount := 0, nextPollAfter := 0.0);
      }
      sessions := sessions[sessionId := saved];
    }

    /** The turn of one session: skipped while it backs off, polled, or its failure recorded. */
    method PollInTurn(sessionId: SessionId, f: Fetch, now: real) returns (delivered: nat)
      requires sessionId in sessions && ValidFetch(f)
      modifies this
      ensures sessions == old(sessions)[sessionId := PollSession(old(sessions)[sessionId], f, now)]
      ensures delivered == DeliveredBy(old(sessions)[sessionId], f, now)
      ensures f.FetchFailed? ==>
                var before, after := old(sessions)[sessionId], sessions[sessionId];
                if before.connected && before.nextPollAfter <= now && before.baseUrl != "" && before.token != ""
                then FailureRecorded(before, after, f.error, f.expired, f.at) else after == before
    {
      var session := sessions[sessionId];
      delivered := 0;
      if !session.connected || session.nextPollAfter > now {
        return;
      }
      match f
      case Fetched(poll) =>
        delivered := PollSessionOnce(sessionId, poll);
      case FetchFailed(error, expired, at) =>
        if session.baseUrl != "" && session.token != "" {
          var updated := WithPollError(session, error, at);
          if expired {
            updated := updated.(connected := false, token := "", cursor := "", contextTokens := map[]);
          }
          sessions := sessions[sessionId := updated];
        }
    }

    /** The sessions take their turns in some order, each at its own time, and the deliveries are
        added up. */
    method PollOnce(order: seq<SessionId>, turns: map<SessionId, Turn>) returns (delivered: nat)
      requires Ready(sessions, turns, order)
      modifies this
      ensures sessions == AfterTurns(old(sessions), turns, order)
      ensures delivered == TotalDelivered(old(sessions), turns, order)
    {
      delivered := 0;
      for k := 0 to |order|
        invariant sessions == AfterTurns(old(sessions), turns, order[..k])
        invariant delivered == TotalDelivered(old(sessions), turns, order[..k])
      {
        var id := order[k];
        assert order[..k + 1][..k] == order[..k] && order[..k + 1][k] == id;
        var more := PollInTurn(id, turns[id].fetch, turns[id].now);
        delivered := delivered + more;
      }
      assert order[..|order|] == order;
    }
  }
}
