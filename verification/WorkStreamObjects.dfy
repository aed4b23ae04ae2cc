/** The relay, stream and consumer as the objects they are, each tied to the steps of module WorkStream. */
module WorkStreamObjects {
  import opened Options
  import opened WorkStream

  // --------------------------------------------- the methods, one command after another

  /** What `publish_event` leaves behind when nothing interferes. */
  function AfterPublish(r: Redis, e: EventId, fails: bool): Redis {
    if e in r.dedup || fails then r
    else
      var m := |r.stream|;
      r.(stream := r.stream + [e], dedup := r.dedup[e := Message(m)], eventOf := r.eventOf[m := e])
  }

  /** What `xack` leaves behind when nothing interferes. */
  function AfterXack(r: Redis, m: nat): Redis {
    if !Unacked(r, m) then r
    else
      r.(acked := r.acked + {m},
         dedup := if m in r.eventOf then r.dedup - {r.eventOf[m]} else r.dedup,
         eventOf := r.eventOf - {m})
  }

  /** The relay's own steps, run without interference, are exactly one `publish_event`. */
  lemma PublishIsFiveSteps(s: System, r: RelayId, e: EventId, fails: bool)
    requires RelayOf(s, r).Idle?
    ensures var s1 := Apply(Apply(s, RelayGet(r, e)), RelayReserve(r));
            var s2 := Apply(Apply(s1, RelayAppend(r, fails)), RelayUnreserve(r));
            var s3 := Apply(Apply(s2, RelayLink(r)), RelayName(r));
            s3.redis == AfterPublish(s.redis, e, fails) && RelayOf(s3, r).Idle?
  {
    if e !in s.redis.dedup {
      if fails {
        FailedPublishSteps(s, r, e);
      } else {
        FullPublishSteps(s, r, e);
      }
    }
  }

  lemma FailedPublishSteps(s: System, r: RelayId, e: EventId)
    requires RelayOf(s, r).Idle? && e !in s.redis.dedup
    ensures var s1 := Apply(Apply(s, RelayGet(r, e)), RelayReserve(r));
            var s2 := Apply(Apply(s1, RelayAppend(r, true)), RelayUnreserve(r));
            var s3 := Apply(Apply(s2, RelayLink(r)), RelayName(r));
            s3.redis == s.redis && RelayOf(s3, r).Idle?
  {
    var s1 := Apply(Apply(s, RelayGet(r, e)), RelayReserve(r));
    assert RelayOf(s1, r) == Reserved(e) && s1.redis == s.redis.(dedup := s.redis.dedup[e := Pending]);
    var s2 := Apply(Apply(s1, RelayAppend(r, true)), RelayUnreserve(r));
    assert s.redis.dedup[e := Pending] - {e} == s.redis.dedup;
    assert RelayOf(s2, r).Idle? && s2.redis == s.redis;
  }

  lemma FullPublishSteps(s: System, r: RelayId, e: EventId)
    requires RelayOf(s, r).Idle? && e !in s.redis.dedup
    ensures var s1 := Apply(Apply(s, RelayGet(r, e)), RelayReserve(r));
            var s2 := Apply(Apply(s1, RelayAppend(r, false)), RelayUnreserve(r));
            var s3 := Apply(Apply(s2, RelayLink(r)), RelayName(r));
            s3.redis == AfterPublish(s.redis, e, false) && RelayOf(s3, r).Idle?
  {
    var s1 := Apply(Apply(s, RelayGet(r, e)), RelayReserve(r));
    var m := |s.redis.stream|;
    assert RelayOf(s1, r) == Reserved(e) && s1.redis == s.redis.(dedup := s.redis.dedup[e := Pending]);
    var s2 := Apply(Apply(s1, RelayAppend(r, false)), RelayUnreserve(r));
    assert RelayOf(s2, r) == Appended(e, m) && s2.redis == Append(s1.redis, e);
    var s3 := Apply(s2, RelayLink(r));
    assert RelayOf(s3, r) == Linked(e, m) && s3.redis.dedup == s.redis.dedup[e := Message(m)];
  }

  /** What a consumer that owns the cleanup of an entry leaves behind. */
  function AfterCleanup(r: Redis, m: nat): Redis {
    r.(dedup := if m in r.eventOf then r.dedup - {r.eventOf[m]} else r.dedup, eventOf := r.eventOf - {m})
  }

  lemma CleanupIsThreeSteps(s: System, c: ConsumerId, m: nat)
    requires ConsumerOf(s, c) == Counted(m) && m < |s.redis.stream|
    ensures var s1 := Apply(s, ConsumerLookUp(c));
            var s2 := Apply(Apply(s1, ConsumerUnreserve(c)), ConsumerForget(c));
            && s2.redis == AfterCleanup(s.redis, m)
            && ConsumerOf(s2, c).Free?
            && HandledBy(s2, c) == HandledBy(s, c) + {s.redis.stream[m]}
  {
    ClearsKey(s, c, m);
  }

  lemma ClearsKey(s: System, c: ConsumerId, m: nat)
    requires ConsumerOf(s, c) == Counted(m) && m < |s.redis.stream|
    ensures var s2 := Apply(Apply(s, ConsumerLookUp(c)), ConsumerUnreserve(c));
            && ConsumerOf(s2, c) == Cleared(m) && s2.handled == s.handled
            && s2.redis == s.redis.(dedup := if m in s.redis.eventOf then s.redis.dedup - {s.redis.eventOf[m]}
              else s.redis.dedup)
  {
    var s1 := Apply(s, ConsumerLookUp(c));
    assert s1.redis == s.redis && s1.handled == s.handled;
  }

  /** The consumer's own steps from a committed mark are exactly one `xack`. */
  lemma XackIsFourSteps(s: System, c: ConsumerId, m: nat)
    requires ConsumerOf(s, c) == Marked(m) && m < |s.redis.stream|
    ensures var s1 := Apply(s, ConsumerAck(c));
            var s2 := Apply(Apply(Apply(s1, ConsumerLookUp(c)), ConsumerUnreserve(c)), ConsumerForget(c));
            && s2.redis == AfterXack(s.redis, m)
            && ConsumerOf(s2, c).Free?
            && HandledBy(s2, c) == HandledBy(s, c) + {s.redis.stream[m]}
  {
    if Unacked(s.redis, m) {
      CleanupIsThreeSteps(Apply(s, ConsumerAck(c)), c, m);
    }
  }

  class RedisWorkStream {
    var redis: Redis

    constructor ()
      ensures redis == START.redis
    {
      redis := START.redis;
    }

    /** Publish once; `fails` says whether XADD raises. The answer is what the dedup key then holds,
        an earlier reservation or the new message id; there is none exactly if the call raises. */
    method PublishEvent(e: EventId, fails: bool) returns (answer: Option<Reservation>)
      modifies this
      ensures redis == AfterPublish(old(redis), e, fails)
      ensures e in old(redis).dedup || fails ==> redis == old(redis)
      ensures e !in old(redis).dedup && !fails ==>
                var m := |old(redis).stream|;
                && redis.stream == old(redis).stream + [e] && redis.dedup == old(redis).dedup[e := Message(m)]
                && redis.eventOf == old(redis).eventOf[m := e] && redis.acked == old(redis).acked
      ensures answer.None? <==> fails && e !in old(redis).dedup
      ensures answer.Some? ==> e in redis.dedup && answer.value == redis.dedup[e]
      ensures answer.Some? && e !in old(redis).dedup ==> answer.value == Message(|old(redis).stream|)
    {
      if e in redis.dedup {
        return Some(redis.dedup[e]);
      }
      redis := SetIfAbsent(redis, e);
      if fails {
        redis := DeleteDedup(redis, e);
        assert redis.dedup == old(redis).dedup;
        return None;
      }
      var messageId := |redis.stream|;
      redis := Append(redis, e);
      redis := SetIfPresent(redis, e, messageId);
      redis := SetEventOf(redis, messageId, e);
      return Some(Message(messageId));
    }

    method Xack(m: nat) returns (acked: bool)
      modifies this
      ensures redis == AfterXack(old(redis), m)
      ensures acked <==> m < |old(redis).stream| && m !in old(redis).acked
      ensures !acked ==> redis == old(redis)
      ensures acked ==>
                && redis.stream == old(redis).stream && redis.acked == old(redis).acked + {m}
                && redis.eventOf == old(redis).eventOf - {m}
                && redis.dedup ==
                   if m in old(redis).eventOf then old(redis).dedup - {old(redis).eventOf[m]} else old(redis).dedup
    {
      acked := Unacked(redis, m);
      if acked {
        redis := Acknowledge(redis, m);
        if m in redis.eventOf {
          redis := DeleteDedup(redis, redis.eventOf[m]);
        }
        redis := DeleteEventOf(redis, m);
      }
    }
  }

  // ------------------------------------------------------------- publishing many rows

  /** What publishing rows one after another leaves behind. */
  function AfterRows(r: Redis, rows: seq<EventId>): Redis {
    if rows == [] then r else AfterPublish(AfterRows(r, rows[..|rows| - 1]), rows[|rows| - 1], false)
  }

  /** The rows that have no key yet, each once, in order. */
  function FreshRows(rows: seq<EventId>, keys: set<EventId>): seq<EventId> {
    if rows == [] then []
    else
      var front := FreshRows(rows[..|rows| - 1], keys);
      var last := rows[|rows| - 1];
      if last in keys || last in front then front else front + [last]
  }

  /** Each row without a key is among them once, and more rows only add after them. */
  lemma {:induction false} FreshRowsMeans(rows: seq<EventId>, keys: set<EventId>, k: nat)
    requires k <= |rows|
    ensures var unkeyed := FreshRows(rows, keys);
            && (forall e :: e in unkeyed <==> e in rows && e !in keys)
            && (forall i, j :: 0 <= i < j < |unkeyed| ==> unkeyed[i] != unkeyed[j])
            && FreshRows(rows[..k], keys) <= unkeyed
    decreases |rows|
  {
    if rows != [] {
      var front, last := rows[..|rows| - 1], rows[|rows| - 1];
      FreshRowsMeans(front, keys, if k < |rows| then k else 0);
      assert rows == front + [last];
      if k < |rows| {
        assert rows[..k] == front[..k];
      } else {
        assert rows[..k] == rows;
      }
    }
  }

  /** The rows before the first failure reach the stream. */
  ghost predicate Published(r: Redis, r': Redis, rows: seq<EventId>) {
    && r'.stream == r.stream + FreshRows(rows, r.dedup.Keys)
    && r'.acked == r.acked
    && r'.dedup.Keys == r.dedup.Keys + (set e | e in rows)
    && (forall e :: e in r.dedup ==> e in r'.dedup && r'.dedup[e] == r.dedup[e])
    && (forall m :: m in r'.eventOf <==> m in r.eventOf || |r.stream| <= m < |r'.stream|)
    && (forall m :: m in r'.eventOf && !(|r.stream| <= m < |r'.stream|) ==> r'.eventOf[m] == r.eventOf[m])
    && (forall m :: |r.stream| <= m < |r'.stream| ==> Named(r', m))
  }

  /** Entry `m` and the key of its event name each other. */
  predicate Named(r: Redis, m: nat) {
    && m < |r.stream| && m in r.eventOf && r.eventOf[m] == r.stream[m]
    && r.stream[m] in r.dedup && r.dedup[r.stream[m]] == Message(m)
  }

  lemma KeyedRowPublished(r: Redis, r': Redis, rows: seq<EventId>, e: EventId)
    requires Published(r, r', rows) && e in r'.dedup
    ensures Published(r, r', rows + [e])
  {
    FreshRowsMeans(rows, r.dedup.Keys, 0);
    assert (rows + [e])[..|rows|] == rows;
  }

  lemma NewRowNamed(r: Redis, r': Redis, rows: seq<EventId>, e: EventId, m: nat)
    requires Published(r, r', rows) && e !in r'.dedup && |r.stream| <= m <= |r'.stream|
    ensures Named(AfterPublish(r', e, false), m)
  {
    if m < |r'.stream| {
      assert Named(r', m);
    }
  }

  lemma NewRowFresh(rows: seq<EventId>, keys: set<EventId>, e: EventId)
    requires e !in keys && e !in rows
    ensures FreshRows(rows + [e], keys) == FreshRows(rows, keys) + [e]
  {
    FreshRowsMeans(rows, keys, 0);
    assert (rows + [e])[..|rows|] == rows;
  }

  lemma NewRowPublished(r: Redis, r': Redis, rows: seq<EventId>, e: EventId)
    requires Published(r, r', rows) && e !in r'.dedup
    ensures Published(r, AfterPublish(r', e, false), rows + [e])
  {
    NewRowFresh(rows, r.dedup.Keys, e);
    var r'' := AfterPublish(r', e, false);
    assert r''.dedup.Keys == r'.dedup.Keys + {e};
    forall m | |r.stream| <= m < |r''.stream| ensures Named(r'', m) {
      NewRowNamed(r, r', rows, e, m);
    }
  }

  lemma OneMorePublished(r: Redis, r': Redis, rows: seq<EventId>, e: EventId)
    requires Published(r, r', rows)
    ensures Published(r, AfterPublish(r', e, false), rows + [e])
  {
    if e in r'.dedup {
      KeyedRowPublished(r, r', rows, e);
    } else {
      NewRowPublished(r, r', rows, e);
    }
  }

  /** Publishing rows appends exactly those without a key, in order; each then has its key, which
      names its entry; and everything about other events is as it was. */
  lemma {:induction false} RowsPublished(r: Redis, rows: seq<EventId>)
    ensures Published(r, AfterRows(r, rows), rows)
  {
    if rows != [] {
      var front, last := rows[..|rows| - 1], rows[|rows| - 1];
      RowsPublished(r, front);
      OneMorePublished(r, AfterRows(r, front), front, last);
      assert rows == front + [last];
    }
  }

  /** Event `e` has one entry from position `from` on, and is named with it. */
  predicate ReachedStream(r: Redis, from: nat, e: EventId) {
    exists m :: from <= m < |r.stream| && r.stream[m] == e && Named(r, m)
  }

  lemma RowReaches(r: Redis, rows: seq<EventId>, e: EventId)
    requires e in rows && e !in r.dedup
    ensures ReachedStream(AfterRows(r, rows), |r.stream|, e)
  {
    RowsPublished(r, rows);
    var unkeyed := FreshRows(rows, r.dedup.Keys);
    FreshRowsMeans(rows, r.dedup.Keys, 0);
    var k :| 0 <= k < |unkeyed| && unkeyed[k] == e;
    assert AfterRows(r, rows).stream[|r.stream| + k] == e && Named(AfterRows(r, rows), |r.stream| + k);
  }

  class OutboxRelay {
    const stream: RedisWorkStream
    var published: seq<EventId>

    constructor (stream: RedisWorkStream)
      ensures this.stream == stream && published == []
    {
      this.stream := stream;
      published := [];
    }

    /** Publish the rows listed as unprocessed; `failing` are the events whose XADD raises.
        Every row before the first failure is marked published; those that had no key are new
        entries of the stream, in order, and nothing else changes. */
    method PublishUnprocessed(records: seq<EventId>, failing: set<EventId>) returns (done: nat)
      modifies this, stream
      ensures done <= |records|
      ensures published == old(published) + records[..done]
      ensures done < |records| ==> records[done] in failing && records[done] !in stream.redis.dedup
      ensures forall k :: 0 <= k < done && records[k] in failing ==> records[k] in old(stream.redis).dedup
      ensures Published(old(stream.redis), stream.redis, records[..done])
      ensures forall k :: 0 <= k < done && records[k] !in old(stream.redis).dedup ==>
                ReachedStream(stream.redis, |old(stream.redis).stream|, records[k])
    {
      done := 0;
      while done < |records|
        invariant done <= |records|
        invariant published == old(published) + records[..done]
        invariant stream.redis == AfterRows(old(stream.redis), records[..done])
        invariant forall k :: 0 <= k < done && records[k] in failing ==> records[k] in old(stream.redis).dedup
      {
        ghost var before := stream.redis;
        RowsPublished(old(stream.redis), records[..done]);
        var answer := stream.PublishEvent(records[done], records[done] in failing);
        if answer.None? {
          break;
        }
        assert records[done] in failing ==> records[done] in before.dedup;
        assert records[..done + 1][..done] == records[..done];
        published := published + [records[done]];
        done := done + 1;
      }
      RowsPublished(old(stream.redis), records[..done]);
      forall k | 0 <= k < done && records[k] !in old(stream.redis).dedup
        ensures ReachedStream(stream.redis, |old(stream.redis).stream|, records[k])
      {
        RowReaches(old(stream.redis), records[..done], records[k]);
      }
    }
  }

  predicate InStream(r: Redis, messages: seq<nat>) {
    forall k :: 0 <= k < |messages| ==> messages[k] < |r.stream|
  }

  /** A consumer's memory, the committed marks and the number of events handled by one call. */
  datatype Consumed = Consumed(redis: Redis, handled: set<EventId>, processed: set<EventId>, count: nat)

  function ConsumeOne(st: Consumed, m: nat): Consumed
    requires m < |st.redis.stream|
  {
    var e := st.redis.stream[m];
    if e in st.handled then st.(redis := AfterXack(st.redis, m))
    else Consumed(AfterXack(st.redis, m), st.handled + {e}, st.processed + {e}, st.count + 1)
  }

  function ConsumeAll(st: Consumed, messages: seq<nat>): (r: Consumed)
    requires InStream(st.redis, messages)
    ensures r.redis.stream == st.redis.stream
  {
    if messages == [] then st
    else
      var n := |messages| - 1;
      ConsumeOne(ConsumeAll(st, messages[..n]), messages[n])
  }

  /** The events of the given messages, and the messages themselves, as sets. */
  function EventsAt(r: Redis, messages: seq<nat>): set<EventId>
    requires InStream(r, messages)
  {
    if messages == [] then {} else EventsAt(r, messages[..|messages| - 1]) + {r.stream[messages[|messages| - 1]]}
  }

  function MessageSet(messages: seq<nat>): set<nat> {
    if messages == [] then {} else MessageSet(messages[..|messages| - 1]) + {messages[|messages| - 1]}
  }

  /** From `st`, the messages `ms` were acknowledged and the events `es` handled once each. */
  ghost predicate Consumes(st: Consumed, r: Consumed, ms: set<nat>, es: set<EventId>) {
    && r.redis.acked == st.redis.acked + ms
    && r.handled == st.handled + es
    && r.processed == st.processed + (r.handled - st.handled)
    && r.count == st.count + |r.handled - st.handled|
  }

  lemma ConsumesOneMore(st: Consumed, mid: Consumed, m: nat, ms: set<nat>, es: set<EventId>)
    requires Consumes(st, mid, ms, es) && m < |mid.redis.stream|
    ensures Consumes(st, ConsumeOne(mid, m), ms + {m}, es + {mid.redis.stream[m]})
  {
    var e := mid.redis.stream[m];
    if e !in mid.handled {
      assert mid.handled + {e} - st.handled == (mid.handled - st.handled) + {e};
    }
  }

  /** Consuming acknowledges exactly the messages given, marks and remembers exactly their
      events, and handles each event not handled before exactly once. */
  lemma {:induction false} ConsumeMeans(st: Consumed, messages: seq<nat>)
    requires InStream(st.redis, messages)
    ensures Consumes(st, ConsumeAll(st, messages), MessageSet(messages), EventsAt(st.redis, messages))
  {
    if messages != [] {
      var front, last := messages[..|messages| - 1], messages[|messages| - 1];
      ConsumeMeans(st, front);
      ConsumesOneMore(st, ConsumeAll(st, front), last, MessageSet(front), EventsAt(st.redis, front));
    }
  }

  /** From `st`, the keys and names of those of the messages `ms` that had not been acknowledged are
      gone; all others are as they were. */
  ghost predicate KeysConsumed(st: Redis, r: Redis, ms: set<nat>) {
    && (forall m :: m in r.eventOf <==> m in st.eventOf && !(m in ms && m !in st.acked))
    && (forall m :: m in r.eventOf ==> r.eventOf[m] == st.eventOf[m])
    && (forall e :: e in r.dedup <==> e in st.dedup && !Deletes(st, ms, e))
    && (forall e :: e in r.dedup ==> r.dedup[e] == st.dedup[e])
  }

  /** One of the messages `ms`, not acknowledged before, is named after event `e`. */
  ghost predicate Deletes(st: Redis, ms: set<nat>, e: EventId) {
    exists m :: m in ms && m !in st.acked && m in st.eventOf && st.eventOf[m] == e
  }

  lemma DeletesOneMore(st: Redis, ms: set<nat>, m: nat, e: EventId)
    ensures Deletes(st, ms + {m}, e) <==>
            Deletes(st, ms, e) || (m !in st.acked && m in st.eventOf && st.eventOf[m] == e)
  {
    if Deletes(st, ms, e) {
      var n :| n in ms && n !in st.acked && n in st.eventOf && st.eventOf[n] == e;
      assert n in ms + {m};
    }
    if m !in st.acked && m in st.eventOf && st.eventOf[m] == e {
      assert m in ms + {m};
    }
  }

  lemma KeysOneMore(st: Redis, mid: Redis, m: nat, ms: set<nat>)
    requires KeysConsumed(st, mid, ms) && mid.acked == st.acked + ms && m < |mid.stream|
    ensures KeysConsumed(st, AfterXack(mid, m), ms + {m})
  {
    forall e ensures Deletes(st, ms + {m}, e) <==>
                     Deletes(st, ms, e) || (m !in st.acked && m in st.eventOf && st.eventOf[m] == e)
    {
      DeletesOneMore(st, ms, m, e);
    }
  }

  /** Consuming frees exactly the events whose messages it acknowledged. */
  lemma {:induction false} ConsumedKeysAreFreed(st: Consumed, messages: seq<nat>)
    requires InStream(st.redis, messages)
    ensures KeysConsumed(st.redis, ConsumeAll(st, messages).redis, MessageSet(messages))
  {
    if messages != [] {
      var front, last := messages[..|messages| - 1], messages[|messages| - 1];
      ConsumedKeysAreFreed(st, front);
      ConsumeMeans(st, front);
      KeysOneMore(st.redis, ConsumeAll(st, front).redis, last, MessageSet(front));
    }
  }

  class StreamConsumer {
    const stream: RedisWorkStream
    var handledEventIds: set<EventId>
    var processed: set<EventId>   // the rows whose mark is committed

    constructor (stream: RedisWorkStream)
      ensures this.stream == stream && handledEventIds == {} && processed == {}
    {
      this.stream := stream;
      handledEventIds := {};
      processed := {};
    }

    function Value(): Consumed
      reads this, stream
    {
      Consumed(stream.redis, handledEventIds, processed, 0)
    }

    /** Handle what was read, in order; `failing` are the events whose handler raises. The
        messages before the first failure are consumed and the failing one is left alone. */
    method HandleReceived(messages: seq<nat>, failing: set<EventId>) returns (handled: nat, next: nat)
      requires InStream(stream.redis, messages)
      modifies this, stream
      ensures next <= |messages|
      ensures Value().(count := handled) == ConsumeAll(old(Value()), messages[..next])
      ensures next < |messages| ==>
                stream.redis.stream[messages[next]] in failing
                  && stream.redis.stream[messages[next]] !in handledEventIds
      ensures stream.redis.stream == old(stream.redis).stream
      ensures forall k :: 0 <= k < next && stream.redis.stream[messages[k]] in failing ==>
                stream.redis.stream[messages[k]] in old(handledEventIds)
    {
      handled := 0;
      next := 0;
      while next < |messages|
        invariant next <= |messages|
        invariant stream.redis.stream == old(stream.redis).stream
        invariant Value().(count := handled) == ConsumeAll(old(Value()), messages[..next])
        invariant forall k :: 0 <= k < next && stream.redis.stream[messages[k]] in failing ==>
                    stream.redis.stream[messages[k]] in old(handledEventIds)
        invariant forall e :: e in handledEventIds && e in failing ==> e in old(handledEventIds)
      {
        var messageId := messages[next];
        assert messages[..next + 1][..next] == messages[..next];
        var e := stream.redis.stream[messageId];
        if e in handledEventIds {
          var _ := stream.Xack(messageId);
          next := next + 1;
          continue;
        }
        if e in failing {
          return;
        }
        processed := processed + {e};
        var _ := stream.Xack(messageId);
        handledEventIds := handledEventIds + {e};
        handled := handled + 1;
        next := next + 1;
      }
    }
  }
}
