/**
  What leaves the process, in terms of the stored rows and the trigger alone: which rows close the
  boundary, which message id, key and text each request carries (coke/turn/runner.py).
*/
module DeliveredRequests {
  import opened Options
  import opened ReplyDelivery
  import opened StreamedDelivery
  import T = TurnTask

  // --------------------------------------------------------------------- which rows count

  /** A row of a reply segment: one with a segment index above zero. */
  predicate IsSegmentRow(m: Message) { m.segmentIndex.Some? && m.segmentIndex.value > 0 }

  /** The store answered, with the row of some segment. */
  predicate HasRow(stored: Option<seq<Message>>) {
    stored.Some? && exists k :: 0 <= k < |stored.value| && IsSegmentRow(stored.value[k])
  }

  /** Rows are kept one by one, in order. */
  lemma {:induction false} RowsKept(a: seq<Message>, b: seq<Message>)
    ensures Indexed(a + b) == Indexed(a) + Indexed(b)
  {
    if b == [] {
      assert a + b == a;
    } else {
      RowsKept(a, b[..|b| - 1]);
      assert (a + b)[..|a + b| - 1] == a + b[..|b| - 1];
    }
  }

  lemma RowKept(m: Message)
    ensures Indexed([m]) == if IsSegmentRow(m) then [m] else []
  {
    assert [m][..0] == [];
  }

  lemma {:induction false} KeptRows(rows: seq<Message>, m: Message)
    ensures m in Indexed(rows) <==> m in rows && IsSegmentRow(m)
  {
    if rows != [] {
      KeptRows(rows[..|rows| - 1], m);
      assert rows == rows[..|rows| - 1] + [rows[|rows| - 1]];
    }
  }

  lemma RowsCount(stored: Option<seq<Message>>)
    ensures OutboundMessages(stored) != [] <==> HasRow(stored)
  {
    if stored.Some? {
      var kept := Indexed(stored.value);
      if kept != [] {
        KeptRows(stored.value, kept[0]);
        var k :| 0 <= k < |stored.value| && stored.value[k] == kept[0];
      }
      if HasRow(stored) {
        var k :| 0 <= k < |stored.value| && IsSegmentRow(stored.value[k]);
        KeptRows(stored.value, stored.value[k]);
      }
    }
  }

  /** `id` is the least one among the stored rows with this index, or there is none. */
  ghost predicate LeastId(stored: Option<seq<Message>>, index: nat, id: Option<nat>) {
    match id
    case None => stored.Some? ==> forall m :: m in stored.value ==> m.segmentIndex != Some(index)
    case Some(v) =>
      && stored.Some? && Message(Some(index), v) in stored.value
      && forall m :: m in stored.value && m.segmentIndex == Some(index) ==> v <= m.id
  }

  lemma CarriesLeastId(stored: Option<seq<Message>>, index: nat)
    requires index >= 1
    ensures LeastId(stored, index, MessageIdFor(OutboundMessages(stored), index))
  {
    var ms := OutboundMessages(stored);
    MessageIdIsLeast(ms, index);
    if stored.Some? {
      forall m ensures m in ms <==> m in stored.value && IsSegmentRow(m) {
        KeptRows(stored.value, m);
      }
    }
  }

  // ------------------------------------------------------------------------- requests

  /** The key of a request: the turn, the segment's number, and the account where it is needed. */
  function KeyText(t: Trigger, turnId: string, account: string, several: bool, index: nat): string {
    turnId + ":reply:" + Decimal(index) + if several || account != t.account then ":" + account else ""
  }

  /** A decimal is the shortest numeral of its number. */
  lemma {:induction false} DecimalIsShortest(n: nat)
    ensures DecimalValue(Decimal(n)) == n
    ensures |Decimal(n)| > 1 ==> Decimal(n)[0] != '0'
  {
    DecimalRoundTrip(n);
    if n >= 10 {
      DecimalIsShortest(n / 10);
    }
  }

  /** The request for segment `j` and the `a`-th recipient stands at its place in the batch. */
  lemma {:induction false} RequestStands(t: Trigger, turnId: string, accounts: seq<string>, several: bool,
                                         segments: seq<string>, ms: seq<Message>, start: nat, a: nat, j: nat, p: nat)
    requires a < |accounts| && j < |segments| && p == a * |segments| + j
    ensures var all := RequestsToAll(t, turnId, accounts, several, segments, ms, start);
            p < |all| && all[p] == RequestFor(t, turnId, accounts[a], several, segments[j], ms, start + j)
    decreases |accounts|
  {
    if a > 0 {
      BlockBefore(a, |segments|);
      RequestStands(t, turnId, accounts[1..], several, segments, ms, start, a - 1, j, p - |segments|);
      StandsAfter(t, turnId, accounts, several, segments, ms, start, p);
    }
  }

  lemma BlockBefore(a: nat, n: nat)
    requires a > 0
    ensures a * n == n + (a - 1) * n
  {
  }

  lemma StandsAfter(t: Trigger, turnId: string, accounts: seq<string>, several: bool, segments: seq<string>,
                    ms: seq<Message>, start: nat, p: nat)
    requires accounts != [] && p >= |segments|
    ensures var all := RequestsToAll(t, turnId, accounts, several, segments, ms, start);
            var rest := RequestsToAll(t, turnId, accounts[1..], several, segments, ms, start);
            |all| == |segments| + |rest| && (p < |all| ==> all[p] == rest[p - |segments|])
  {
  }

  lemma KeyWritten(t: Trigger, turnId: string, account: string, several: bool, index: nat)
    ensures IdempotencyKey(turnId, index, account, several || account != t.account)
            == KeyText(t, turnId, account, several, index)
  {
    var key := turnId + ":reply:" + Decimal(index);
    assert key + "" == key;
    assert key + ":" + account == key + (":" + account);
  }

  lemma {:induction false} RequestCount(t: Trigger, turnId: string, accounts: seq<string>, several: bool,
                                        segments: seq<string>, ms: seq<Message>, start: nat)
    ensures |RequestsToAll(t, turnId, accounts, several, segments, ms, start)| == |accounts| * |segments|
    decreases |accounts|
  {
    if accounts != [] {
      RequestCount(t, turnId, accounts[1..], several, segments, ms, start);
      assert |accounts| * |segments| == |segments| + (|accounts| - 1) * |segments|;
    }
  }

  /** Each recipient gets each segment once, recipient by recipient, under its own key and with the
      message id recorded for that very segment. */
  lemma RequestsAre(t: Trigger, turnId: string, segments: seq<string>, ms: seq<Message>, start: nat, a: nat, j: nat)
    requires a < |RecipientAccountIds(t)| && j < |segments|
    ensures var accounts := RecipientAccountIds(t); var all := ReplyDeliveryRequests(t, turnId, segments, ms, start);
            && |all| == |accounts| * |segments| && a * |segments| + j < |all|
            && all[a * |segments| + j]
              == Request(accounts[a], KeyText(t, turnId, accounts[a], |accounts| > 1, start + j), segments[j],
                         MessageIdFor(ms, start + j))
  {
    var accounts := RecipientAccountIds(t);
    RequestStands(t, turnId, accounts, |accounts| > 1, segments, ms, start, a, j, a * |segments| + j);
    KeyWritten(t, turnId, accounts[a], |accounts| > 1, start + j);
    RequestCount(t, turnId, accounts, |accounts| > 1, segments, ms, start);
  }

  // ------------------------------------------------------------------ keys of two turns

  lemma FirstColon(x: string, y: string, rest: string, rest': string)
    requires ':' !in x && ':' !in y && x + ":" + rest == y + ":" + rest'
    ensures x == y
  {
    var text := x + ":" + rest;
    assert text[|x|] == ':' && text[|y|] == ':';
    assert forall k :: 0 <= k < |x| ==> text[k] == x[k];
    assert forall k :: 0 <= k < |y| ==> text[k] == y[k];
    assert text[..|x|] == x && text[..|y|] == y;
  }

  /** Keys of different turns differ, whatever the accounts and segments, if turn ids have no colon. */
  lemma KeysOfTurnsDiffer(t: Trigger, x: string, account: string, several: bool, i: nat,
                          t': Trigger, y: string, account': string, several': bool, j: nat)
    requires ':' !in x && ':' !in y && x != y
    ensures KeyText(t, x, account, several, i) != KeyText(t', y, account', several', j)
  {
    var rest := "reply:" + Decimal(i) + if several || account != t.account then ":" + account else "";
    var rest' := "reply:" + Decimal(j) + if several' || account' != t'.account then ":" + account' else "";
    assert KeyText(t, x, account, several, i) == x + ":" + rest;
    assert KeyText(t', y, account', several', j) == y + ":" + rest';
    if x + ":" + rest == y + ":" + rest' {
      FirstColon(x, y, rest, rest');
    }
  }

  /** With colons they need not: an account may spell out the other turn's key. */
  lemma ColonsCollide(t: Trigger)
    requires t.account == "b"
    ensures KeyText(t, "x", "a:reply:1", false, 1) == KeyText(t, "x:reply:1:a", "b", false, 1)
  {
    assert Decimal(1) == "1";
  }

  // --------------------------------------------------------------- recipients and texts

  /** A notification's recipients are read one by one, in order. */
  lemma {:induction false} NamesKept(a: seq<Option<string>>, b: seq<Option<string>>)
    ensures NamedAccounts(a + b) == NamedAccounts(a) + NamedAccounts(b)
  {
    if b == [] {
      assert a + b == a;
    } else {
      NamesKept(a, b[..|b| - 1]);
      assert (a + b)[..|a + b| - 1] == a + b[..|b| - 1];
    }
  }

  lemma NameKept(name: Option<string>)
    ensures NamedAccounts([name]) == if name == None || name == Some("") then [] else [name.value]
  {
    assert [name][..0] == [];
  }

  /** A notification without a list, like any other turn, goes to the trigger's own account. */
  lemma NoListMeansOwn(t: Trigger)
    requires t.recipients == None || t.triggerType != NotificationTurn
    ensures RecipientAccountIds(t) == [t.account]
  {
  }

  /** A notification's recipients stand where they were first named. */
  lemma RecipientsInOrder(t: Trigger, raw: seq<Option<string>>, j: nat, k: nat)
    requires t.triggerType == NotificationTurn && t.recipients == Some(raw) && NamedAccounts(raw) != []
    requires j < k < |RecipientAccountIds(t)|
    ensures var r, named := RecipientAccountIds(t), NamedAccounts(raw);
            && r[j] in named && r[k] in named
            && FirstIndex(named, r[j]) < FirstIndex(named, r[k])
  {
    FirstOccurrencesInOrder(NamedAccounts(raw), j, k);
  }

  /** Segments sent as one message are separated by line feeds. */
  lemma {:induction false} JoinedByLines(a: seq<string>, b: seq<string>)
    requires a != [] && b != []
    ensures Joined(a + b) == Joined(a) + "\n" + Joined(b)
    decreases |b|
  {
    var init := b[..|b| - 1];
    assert (a + b)[..|a + b| - 1] == a + init;
    if init == [] {
      assert a + init == a;
    } else {
      JoinedByLines(a, init);
      var last := b[|b| - 1];
      assert Joined(a) + "\n" + Joined(init) + "\n" + last == Joined(a) + "\n" + (Joined(init) + "\n" + last);
    }
  }

  lemma JoinedOne(segment: string)
    ensures Joined([segment]) == segment
  {
  }

  // --------------------------------------------------------------- one segment handed over

  /** From position `from` on, the log's `k`-th event sends the `k`-th recipient segment number `index`. */
  ghost predicate SentTo(log: seq<Event>, from: nat, k: nat, t: Trigger, turnId: string, segment: string, index: nat,
                         stored: Option<seq<Message>>)
  {
    var accounts := RecipientAccountIds(t);
    && k < |accounts| && from + k < |log| && log[from + k].Sent?
    && var r := log[from + k].request;
       && r.account == accounts[k] && r.text == segment && LeastId(stored, index, r.messageId)
       && r.key == KeyText(t, turnId, accounts[k], |accounts| > 1, index)
  }

  ghost predicate SentToAll(log: seq<Event>, from: nat, t: Trigger, turnId: string, segment: string, index: nat,
                            stored: Option<seq<Message>>)
  {
    forall k: nat :: k < |RecipientAccountIds(t)| ==> SentTo(log, from, k, t, turnId, segment, index, stored)
  }

  /** The port commits the close exactly if it has not and the store holds a row of some segment;
      then each recipient is sent the segment, with the id recorded for it. */
  lemma DeliverLeaves(p: Port, t: Trigger, turnId: string, segment: string, stored: Option<seq<Message>>)
    ensures var p' := DeliverOne(p, t, turnId, segment, OutboundMessages(stored));
            var before := p.log + if HasRow(stored) && !p.closeCommitted then [Commit] else [];
            var accounts := RecipientAccountIds(t);
            && p'.count == p.count + 1 && (p'.closeCommitted <==> p.closeCommitted || HasRow(stored))
            && |p'.log| == |before| + |accounts| && before <= p'.log
            && SentToAll(p'.log, |before|, t, turnId, segment, p.count + 1, stored)
  {
    var ms := OutboundMessages(stored);
    var accounts := RecipientAccountIds(t);
    RowsCount(stored);
    var requests := ReplyDeliveryRequests(t, turnId, [segment], ms, p.count + 1);
    RequestsAre(t, turnId, [segment], ms, p.count + 1, 0, 0);
    var before := p.log + if HasRow(stored) && !p.closeCommitted then [Commit] else [];
    var log := DeliverOne(p, t, turnId, segment, ms).log;
    assert log == before + Sends(requests);
    SendsToAll(before, t, turnId, segment, stored, p.count + 1);
  }

  lemma SendsToAll(before: seq<Event>, t: Trigger, turnId: string, segment: string, stored: Option<seq<Message>>,
                   index: nat)
    requires index >= 1
    ensures var requests := ReplyDeliveryRequests(t, turnId, [segment], OutboundMessages(stored), index);
            SentToAll(before + Sends(requests), |before|, t, turnId, segment, index, stored)
  {
    var log := before + Sends(ReplyDeliveryRequests(t, turnId, [segment], OutboundMessages(stored), index));
    var from := |before|;
    forall k: nat | k < |RecipientAccountIds(t)| ensures SentTo(log, from, k, t, turnId, segment, index, stored) {
      SendsOneEach(before, t, turnId, segment, stored, index, k);
    }
  }

  lemma SendsOneEach(before: seq<Event>, t: Trigger, turnId: string, segment: string, stored: Option<seq<Message>>,
                     index: nat, k: nat)
    requires index >= 1 && k < |RecipientAccountIds(t)|
    ensures var requests := ReplyDeliveryRequests(t, turnId, [segment], OutboundMessages(stored), index);
            SentTo(before + Sends(requests), |before|, k, t, turnId, segment, index, stored)
  {
    var ms := OutboundMessages(stored);
    CarriesLeastId(stored, index);
    RequestsAre(t, turnId, [segment], ms, index, k, 0);
    assert k * |[segment]| + 0 == k;
    var requests := ReplyDeliveryRequests(t, turnId, [segment], ms, index);
    assert (before + Sends(requests))[|before| + k] == Sent(requests[k]);
  }

  // -------------------------------------------------------------- a turn's whole delivery

  /** The segments handed over one after another, with what the store answered each time. */
  function DeliverRun(t: Trigger, turnId: string, segments: seq<string>, stores: seq<Option<seq<Message>>>): Port
    requires |segments| == |stores|
  {
    if segments == [] then FRESH
    else
      var n := |segments| - 1;
      DeliverOne(DeliverRun(t, turnId, segments[..n], stores[..n]), t, turnId, segments[n], OutboundMessages(stores[n]))
  }

  predicate SomeHasRow(stores: seq<Option<seq<Message>>>) {
    exists k :: 0 <= k < |stores| && HasRow(stores[k])
  }

  lemma SomeHasRowLast(stores: seq<Option<seq<Message>>>)
    requires stores != []
    ensures SomeHasRow(stores) <==> SomeHasRow(stores[..|stores| - 1]) || HasRow(stores[|stores| - 1])
  {
    var front := stores[..|stores| - 1];
    if SomeHasRow(front) {
      var k :| 0 <= k < |front| && HasRow(front[k]);
      assert HasRow(stores[k]);
    }
    if SomeHasRow(stores) {
      var k :| 0 <= k < |stores| && HasRow(stores[k]);
      assert k < |front| ==> HasRow(front[k]);
    }
  }

  /** The port commits the close at all exactly if the store once held a row, and commits before
      anything is sent exactly if it did when the first segment was handed over. */
  lemma {:induction false} CommitsIffRecorded(t: Trigger, turnId: string, segments: seq<string>,
                                              stores: seq<Option<seq<Message>>>)
    requires |segments| == |stores|
    ensures var p := DeliverRun(t, turnId, segments, stores);
            && p.count == |segments| && (p.closeCommitted <==> SomeHasRow(stores))
            && (Commit in p.log <==> SomeHasRow(stores))
            && (segments != [] ==> p.log != [] && (p.log[0] == Commit <==> HasRow(stores[0])))
  {
    if segments != [] {
      var n := |segments| - 1;
      var p := DeliverRun(t, turnId, segments[..n], stores[..n]);
      CommitsIffRecorded(t, turnId, segments[..n], stores[..n]);
      SomeHasRowLast(stores);
      DeliverLeaves(p, t, turnId, segments[n], stores[n]);
      OneMoreDelivered(p, t, turnId, segments[n], stores[n]);
    }
  }

  lemma OneMoreDelivered(p: Port, t: Trigger, turnId: string, segment: string, stored: Option<seq<Message>>)
    ensures var log := DeliverOne(p, t, turnId, segment, OutboundMessages(stored)).log;
            && p.log <= log && log != []
            && (Commit in log <==> Commit in p.log || (HasRow(stored) && !p.closeCommitted))
            && (p.log == [] ==> (log[0] == Commit <==> HasRow(stored) && !p.closeCommitted))
  {
    var ms := OutboundMessages(stored);
    RowsCount(stored);
    RequestsAre(t, turnId, [segment], ms, p.count + 1, 0, 0);
    var requests := ReplyDeliveryRequests(t, turnId, [segment], ms, p.count + 1);
    LogExtended(p.log, HasRow(stored) && !p.closeCommitted, requests);
  }

  lemma LogExtended(before: seq<Event>, commits: bool, requests: seq<Request>)
    requires requests != []
    ensures var log := before + CommitOf(commits) + Sends(requests);
            && before <= log && log != [] && (Commit in log <==> Commit in before || commits)
            && (before == [] ==> (log[0] == Commit <==> commits))
  {
    assert Sends(requests)[0] != Commit && Commit !in Sends(requests);
  }

  // ----------------------------------------------------------- the turn task's view of it

  /** What a turn's task records of the events: commits and sends. */
  function Kinds(log: seq<Event>): seq<T.Event> {
    seq(|log|, k requires 0 <= k < |log| => if log[k] == Commit then T.Commit else T.Send)
  }

  /** For one recipient, handing the port a segment is the `Deliver` action of the turn's task:
      `recorded` stands for the store holding a row of some segment. */
  lemma PortIsTask(p: Port, t: Trigger, turnId: string, segment: string, stored: Option<seq<Message>>, task: T.Task)
    requires |RecipientAccountIds(t)| == 1
    requires task.outcome.None? && !task.cancelRequested
    requires task.recorded == HasRow(stored) && task.deliveryClosed == p.closeCommitted && task.log == Kinds(p.log)
    ensures var p' := DeliverOne(p, t, turnId, segment, OutboundMessages(stored)); var task' := T.Act(task, T.Deliver);
            task'.log == Kinds(p'.log) && task'.deliveryClosed == p'.closeCommitted
  {
    DeliverLeaves(p, t, turnId, segment, stored);
    var log := DeliverOne(p, t, turnId, segment, OutboundMessages(stored)).log;
    var before := p.log + if HasRow(stored) && !p.closeCommitted then [Commit] else [];
    assert SentTo(log, |before|, 0, t, turnId, segment, p.count + 1, stored);
    assert log == before + [log[|before|]];
    assert Kinds(log) == Kinds(before) + [T.Send];
    if HasRow(stored) && !p.closeCommitted {
      assert Kinds(before) == Kinds(p.log) + [T.Commit];
    }
  }

  // ------------------------------------------------------------- the validated output

  /** A system turn whose one message has been sent sends nothing more. */
  lemma NothingRemains(t: Trigger, turnId: string, validated: seq<string>, skip: nat, ms: seq<Message>)
    requires skip >= |validated| || (!t.triggerType.InboundTurn? && skip >= 1)
    ensures RemainingRequests(t, turnId, validated, skip, ms) == []
  {
    NoSegmentsNoRequests(t, turnId, RecipientAccountIds(t), |RecipientAccountIds(t)| > 1, ms, skip + 1);
  }
}
