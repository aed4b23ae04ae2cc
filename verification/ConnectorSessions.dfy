/**
  What turns do to a stored session, field by field, and over whole runs of turns: when it loses its
  connection, its credentials or its cursor (provider_edges/wechat_personal_connector/app.py).
*/
module ConnectorSessions {
  import opened Options
  import opened ConnectorPoll

  /** The session is polled in this turn: connected, due, and able to fetch. */
  predicate Due(session: Session, turn: Turn) {
    session.connected && session.nextPollAfter <= turn.now && session.baseUrl != "" && session.token != ""
  }

  // ------------------------------------------------------------------------ one turn

  lemma SkippedTurn(session: Session, turn: Turn)
    requires ValidFetch(turn.fetch) && !Due(session, turn)
    ensures TakeTurn(session, turn) == session
  {
  }

  /** A fetch that fails is recorded, and only an expired session loses anything. */
  lemma FailedTurn(session: Session, error: string, expired: bool, at: real, now: real)
    requires Due(session, Turn(FetchFailed(error, expired, at), now))
    ensures FailureRecorded(session, TakeTurn(session, Turn(FetchFailed(error, expired, at), now)), error, expired, at)
  {
  }

  /** A batch that was finished: the cursor moves if a next one was supplied, and errors are forgotten. */
  lemma FinishedTurn(session: Session, p: Poll, now: real)
    requires ValidPoll(p) && Due(session, Turn(Fetched(p), now)) && WalkOf(session, p).Finished?
    ensures var after := TakeTurn(session, Turn(Fetched(p), now));
            && after.connected && after.baseUrl == session.baseUrl && after.token == session.token
            && after.cursor == (if p.nextCursor.Some? then p.nextCursor.value else session.cursor)
            && after.lastPollError == "" && after.pollErrorCount == 0
            && after.nextPollAfter == (if session.pollErrorCount == 0 then session.nextPollAfter else 0.0)
            && after.deliveryAttempts == WalkOf(session, p).attempts && after.contextTokens == WalkOf(session, p).tokens
  {
  }

  /** A batch that stopped at a rejection: the cursor stays, and the session backs off. */
  lemma StoppedTurn(session: Session, p: Poll, now: real)
    requires ValidPoll(p) && Due(session, Turn(Fetched(p), now)) && WalkOf(session, p).Stopped?
    ensures var after := TakeTurn(session, Turn(Fetched(p), now));
            && after.connected && after.baseUrl == session.baseUrl && after.token == session.token
            && after.cursor == session.cursor && after.lastPollError == WalkOf(session, p).error
            && after.pollErrorCount == (if session.pollErrorCount > 0 then session.pollErrorCount else 0) + 1
            && p.now + 1.0 <= after.nextPollAfter <= p.now + 32.0
            && after.deliveryAttempts == WalkOf(session, p).attempts && after.contextTokens == WalkOf(session, p).tokens
  {
  }

  /** The delay starts at one second and doubles with each error in a row, up to 32. */
  lemma DelayDoubles(n: nat)
    requires n >= 1
    ensures PollRetryDelaySeconds(1) == 1.0
    ensures var d := PollRetryDelaySeconds(n);
            PollRetryDelaySeconds(n + 1) == if 2.0 * d <= 32.0 then 2.0 * d else 32.0
  {
    assert Power2(5) == 32 && Power2(4) == 16 && Power2(3) == 8 && Power2(2) == 4 && Power2(1) == 2 && Power2(0) == 1;
  }

  // ------------------------------------------------------------------------ one walk

  /** Messages are what is left of a batch, in order. */
  lemma {:induction false} DeliverableJoin(a: seq<Option<Message>>, b: seq<Option<Message>>)
    ensures Deliverable(a + b) == Deliverable(a) + Deliverable(b)
  {
    if a == [] {
      assert a + b == b;
    } else {
      assert (a + b)[1..] == a[1..] + b;
      DeliverableJoin(a[1..], b);
    }
  }

  lemma DeliverableOne(m: Option<Message>)
    ensures Deliverable([m]) == if m == None then [] else [m.value]
  {
  }

  function AcceptedIn(rs: seq<Response>): nat {
    if rs == [] then 0 else (if rs[0] == Accepted then 1 else 0) + AcceptedIn(rs[1..])
  }

  function Stored(tokens: map<string, string>, w: string): Option<string> {
    if w in tokens then Some(tokens[w]) else None
  }

  /** The context token that sender `w` is left with: that of its last message, or what there was. */
  function LastToken(ms: seq<Message>, before: Option<string>, w: string): Option<string> {
    if ms == [] then before
    else if ms[|ms| - 1].wxid == w then Some(ms[|ms| - 1].contextToken)
    else LastToken(ms[..|ms| - 1], before, w)
  }

  lemma {:induction false} LastTokenFirst(ms: seq<Message>, before: Option<string>, w: string)
    requires ms != []
    ensures LastToken(ms, before, w)
            == LastToken(ms[1..], if ms[0].wxid == w then Some(ms[0].contextToken) else before, w)
    decreases |ms|
  {
    if |ms| > 1 {
      assert ms[..|ms| - 1][1..] == ms[1..][..|ms| - 2];
      LastTokenFirst(ms[..|ms| - 1], before, w);
    }
  }

  /** Of the posted messages the last may have stopped the walk: its counter goes up by one, those
      of the others are cleared, and those of messages not posted stay. */
  predicate CountersStored(ms: seq<Message>, posted: int, stopped: bool, before: map<string, int>,
                           after: map<string, int>)
  {
    forall k :: 0 <= k < |ms| ==>
      Count(after, ms[k].id) ==
        if k >= posted then Count(before, ms[k].id)
        else if k == posted - 1 && stopped then Count(before, ms[k].id) + 1
        else 0
  }

  lemma {:induction false} WalkTokens(ms: seq<Message>, rs: seq<Response>, attempts: map<string, int>,
                                      tokens: map<string, string>, delivered: nat, w: string)
    requires |rs| == |ms|
    ensures Stored(WalkBatch(ms, rs, attempts, tokens, delivered).tokens, w)
            == LastToken(ms[..Posted(ms, rs, attempts)], Stored(tokens, w), w)
    decreases |ms|
  {
    if ms != [] {
      var m, posted := ms[0], Posted(ms, rs, attempts);
      LastTokenFirst(ms[..posted], Stored(tokens, w), w);
      if posted == 1 {
        assert ms[..1][1..] == [];
      }
      if !(rs[0].Rejected? && Count(attempts, m.id) + 1 < 5) {
        assert ms[..posted][1..] == ms[1..][..posted - 1];
        WalkTokens(ms[1..], rs[1..], attempts - {m.id}, tokens[m.wxid := m.contextToken],
                   if rs[0].Accepted? then delivered + 1 else delivered, w);
      }
    }
  }

  /** How many messages are posted: up to the first rejection that is not the fifth for its message. */
  function Posted(ms: seq<Message>, rs: seq<Response>, attempts: map<string, int>): (n: nat)
    requires |rs| == |ms|
    ensures n <= |ms| && (ms != [] ==> n > 0)
  {
    if ms == [] then 0
    else if rs[0].Rejected? && Count(attempts, ms[0].id) + 1 < 5 then 1
    else 1 + Posted(ms[1..], rs[1..], attempts - {ms[0].id})
  }

  /** A walk delivers the messages that were accepted, and stops, if it does, at the last one posted. */
  lemma {:induction false} WalkDelivers(ms: seq<Message>, rs: seq<Response>, attempts: map<string, int>,
                                        tokens: map<string, string>, delivered: nat)
    requires |rs| == |ms|
    ensures var w := WalkBatch(ms, rs, attempts, tokens, delivered); var posted := Posted(ms, rs, attempts);
            && w.delivered == delivered + AcceptedIn(rs[..posted])
            && (w.Finished? ==> posted == |ms|)
            && (w.Stopped? ==> posted > 0 && rs[posted - 1] == Rejected(w.error))
    decreases |ms|
  {
    if ms != [] {
      var m, posted := ms[0], Posted(ms, rs, attempts);
      if rs[0].Rejected? && Count(attempts, m.id) + 1 < 5 {
        assert rs[..1] == [rs[0]] && rs[..1][1..] == [];
      } else {
        WalkDelivers(ms[1..], rs[1..], attempts - {m.id}, tokens[m.wxid := m.contextToken],
                     if rs[0].Accepted? then delivered + 1 else delivered);
        assert rs[..posted][1..] == rs[1..][..posted - 1];
      }
    }
  }

  /** The rejection that stops a walk. */
  predicate Stops(m: Message, r: Response, attempts: map<string, int>) { r.Rejected? && Count(attempts, m.id) + 1 < 5 }

  /** With distinct ids, a walk stops at the first message rejected fewer than five times, counting
      this time, and finishes if there is none. */
  lemma {:induction false} StopsAtFirst(ms: seq<Message>, rs: seq<Response>, attempts: map<string, int>,
                                        tokens: map<string, string>, delivered: nat, k: nat)
    requires |rs| == |ms| && DistinctIds(ms) && k < |ms|
    ensures var posted := Posted(ms, rs, attempts);
            && (k + 1 < posted ==> !Stops(ms[k], rs[k], attempts))
            && (k + 1 == posted ==>
                 (WalkBatch(ms, rs, attempts, tokens, delivered).Stopped? <==> Stops(ms[k], rs[k], attempts))
                 && (posted < |ms| ==> Stops(ms[k], rs[k], attempts)))
    decreases |ms|
  {
    var m := ms[0];
    if !Stops(m, rs[0], attempts) && |ms| > 1 {
      TailDistinct(ms);
      var tokens' := tokens[m.wxid := m.contextToken];
      var delivered' := if rs[0].Accepted? then delivered + 1 else delivered;
      if k > 0 {
        assert ms[0].id != ms[k].id;
        StopsAtFirst(ms[1..], rs[1..], attempts - {m.id}, tokens', delivered', k - 1);
      }
    }
  }

  lemma {:induction false} WalkCounters(ms: seq<Message>, rs: seq<Response>, attempts: map<string, int>,
                                        tokens: map<string, string>, delivered: nat)
    requires |rs| == |ms| && DistinctIds(ms)
    ensures var w := WalkBatch(ms, rs, attempts, tokens, delivered);
            CountersStored(ms, Posted(ms, rs, attempts), w.Stopped?, attempts, w.attempts)
    decreases |ms|
  {
    if ms != [] {
      var m := ms[0];
      TailDistinct(ms);
      if !(rs[0].Rejected? && Count(attempts, m.id) + 1 < 5) {
        var tokens' := tokens[m.wxid := m.contextToken];
        var delivered' := if rs[0].Accepted? then delivered + 1 else delivered;
        WalkCounters(ms[1..], rs[1..], attempts - {m.id}, tokens', delivered');
        WalkFrame(ms[1..], rs[1..], attempts - {m.id}, tokens', delivered', m.id);
        CountersOneMore(ms, Posted(ms[1..], rs[1..], attempts - {m.id}),
          WalkBatch(ms, rs, attempts, tokens, delivered).Stopped?, attempts,
          WalkBatch(ms, rs, attempts, tokens, delivered).attempts);
      }
    }
  }

  lemma CountersOneMore(ms: seq<Message>, rest: nat, stopped: bool, before: map<string, int>, after: map<string, int>)
    requires ms != [] && DistinctIds(ms) && CountersStored(ms[1..], rest, stopped, before - {ms[0].id}, after)
    requires Count(after, ms[0].id) == 0 && (stopped ==> rest > 0)
    ensures CountersStored(ms, 1 + rest, stopped, before, after)
  {
    forall k | 1 <= k < |ms|
      ensures Count(after, ms[k].id) ==
              if k >= 1 + rest then Count(before, ms[k].id)
              else if k == rest && stopped then Count(before, ms[k].id) + 1
              else 0
    {
      assert ms[1..][k - 1] == ms[k] && ms[0].id != ms[k].id;
    }
  }

  // ------------------------------------------------------------------ runs of turns

  predicate ValidTurns(turns: seq<Turn>) { forall k :: 0 <= k < |turns| ==> ValidFetch(turns[k].fetch) }

  /** A session after its turns, one after another. */
  function AfterAll(session: Session, turns: seq<Turn>): Session
    requires ValidTurns(turns)
  {
    if turns == [] then session else TakeTurn(AfterAll(session, turns[..|turns| - 1]), turns[|turns| - 1])
  }

  /** In turn `k` the session was polled and found expired. */
  predicate ExpiresAt(session: Session, turns: seq<Turn>, k: nat)
    requires ValidTurns(turns) && k < |turns|
  {
    Due(AfterAll(session, turns[..k]), turns[k]) && turns[k].fetch.FetchFailed? && turns[k].fetch.expired
  }

  predicate Expired(session: Session, turns: seq<Turn>)
    requires ValidTurns(turns)
  {
    exists k :: 0 <= k < |turns| && ExpiresAt(session, turns, k)
  }

  lemma ExpiredLast(session: Session, turns: seq<Turn>)
    requires ValidTurns(turns) && turns != []
    ensures Expired(session, turns) <==>
            Expired(session, turns[..|turns| - 1]) || ExpiresAt(session, turns, |turns| - 1)
  {
    var front := turns[..|turns| - 1];
    forall k | 0 <= k < |front| ensures ExpiresAt(session, front, k) <==> ExpiresAt(session, turns, k) {
      assert front[..k] == turns[..k];
    }
    if Expired(session, turns) {
      var k :| 0 <= k < |turns| && ExpiresAt(session, turns, k);
      assert k < |front| ==> ExpiresAt(session, front, k);
    }
    if Expired(session, front) {
      var k :| 0 <= k < |front| && ExpiresAt(session, front, k);
      assert ExpiresAt(session, turns, k);
    }
  }

  lemma KeptUnlessExpired(session: Session, turn: Turn)
    requires ValidFetch(turn.fetch)
    ensures var after := TakeTurn(session, turn);
            && after.baseUrl == session.baseUrl
            && if Due(session, turn) && turn.fetch.FetchFailed? && turn.fetch.expired
               then !after.connected && after.token == ""
               else after.connected == session.connected && after.token == session.token
  {
  }

  /** Over any run of turns a session that can be polled keeps its connection and its token exactly
      if no poll found it expired; otherwise it has neither. */
  lemma {:induction false} LostOnlyWhenExpired(session: Session, turns: seq<Turn>)
    requires ValidTurns(turns) && session.connected && session.token != ""
    ensures var after := AfterAll(session, turns);
            if Expired(session, turns) then !after.connected && after.token == ""
            else after.connected && after.token == session.token
  {
    if turns != [] {
      LostOnlyWhenExpired(session, turns[..|turns| - 1]);
      ExpiredLast(session, turns);
      KeptUnlessExpired(AfterAll(session, turns[..|turns| - 1]), turns[|turns| - 1]);
    }
  }

  /** In turn `k` the batch was finished and came with this next cursor. */
  predicate FinishesAt(session: Session, turns: seq<Turn>, k: nat, cursor: string)
    requires ValidTurns(turns) && k < |turns|
  {
    var now, f := AfterAll(session, turns[..k]), turns[k].fetch;
    Due(now, turns[k]) && f.Fetched? && WalkOf(now, f.poll).Finished? && f.poll.nextCursor == Some(cursor)
  }

  /** Over any run of turns the cursor is as it was, or cleared when the session expired, or the
      next cursor of a batch that was finished. */
  lemma {:induction false} CursorMovesOnlyWhenFinished(session: Session, turns: seq<Turn>)
    requires ValidTurns(turns)
    ensures var after := AfterAll(session, turns);
            || after.cursor == session.cursor
            || (after.cursor == "" && Expired(session, turns))
            || exists k :: 0 <= k < |turns| && FinishesAt(session, turns, k, after.cursor)
  {
    if turns != [] {
      var front, last := turns[..|turns| - 1], |turns| - 1;
      var before, after := AfterAll(session, front), AfterAll(session, turns);
      CursorMovesOnlyWhenFinished(session, front);
      ExpiredLast(session, turns);
      if after.cursor != before.cursor {
        assert ExpiresAt(session, turns, last) || FinishesAt(session, turns, last, after.cursor);
      } else if exists k :: 0 <= k < |front| && FinishesAt(session, front, k, before.cursor) {
        var k :| 0 <= k < |front| && FinishesAt(session, front, k, before.cursor);
        assert front[..k] == turns[..k];
        assert FinishesAt(session, turns, k, after.cursor);
      }
    }
  }

  // ------------------------------------------------------------------ many sessions

  /** Distinct sessions deliver what each of them delivers by itself. */
  lemma DeliveriesAddUp(sessions: map<SessionId, Session>, turns: map<SessionId, Turn>, order: seq<SessionId>,
                        id: SessionId)
    requires Ready(sessions, turns, order + [id])
    requires forall i, j :: 0 <= i < j < |order + [id]| ==> (order + [id])[i] != (order + [id])[j]
    ensures Ready(sessions, turns, order)
    ensures id in sessions && id in turns && ValidFetch(turns[id].fetch)
    ensures var s, turn := sessions[id], turns[id];
            TotalDelivered(sessions, turns, order + [id]) ==
            TotalDelivered(sessions, turns, order) +
              if Due(s, turn) && turn.fetch.Fetched? then WalkOf(s, turn.fetch.poll).delivered else 0
  {
    var all := order + [id];
    assert all[..|order|] == order && all[|order|] == id;
    forall k | 0 <= k < |order| ensures order[k] in sessions && order[k] in turns && order[k] != id
                                        && ValidFetch(turns[order[k]].fetch)
    {
      assert all[k] == order[k];
    }
    assert forall i, j :: 0 <= i < j < |order| ==> all[i] != all[j];
    TurnsAreIndependent(sessions, turns, order, id);
  }
}
