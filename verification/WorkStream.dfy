/**
  Outbox rows on their way through the Redis stream (coke/infra/redis.py,
  coke/worker/outbox_relay.py, coke/worker/stream_consumer.py): the stream store and its
  commands, and any number of relays and consumers stepping one command at a time.
*/
module WorkStream {
  import opened Options

  type EventId(==, !new)
  type RelayId(==, !new)
  type ConsumerId(==, !new)

  // ------------------------------------------------------------------ the store

  /** The value of a dedup key: the string "pending" or a stream message id. */
  datatype Reservation = Pending | Message(id: nat)

  /** Dedup keys, message-to-event keys, the stream (message ids are positions) and the
      entries acknowledged in the group. */
  datatype Redis = Redis(dedup: map<EventId, Reservation>, eventOf: map<nat, EventId>, stream: seq<EventId>,
    acked: set<nat>)

  function SetIfAbsent(r: Redis, e: EventId): Redis {
    if e in r.dedup then r else r.(dedup := r.dedup[e := Pending])
  }

  function SetIfPresent(r: Redis, e: EventId, m: nat): Redis {
    if e in r.dedup then r.(dedup := r.dedup[e := Message(m)]) else r
  }

  function DeleteDedup(r: Redis, e: EventId): Redis { r.(dedup := r.dedup - {e}) }

  function SetEventOf(r: Redis, m: nat, e: EventId): Redis { r.(eventOf := r.eventOf[m := e]) }

  function DeleteEventOf(r: Redis, m: nat): Redis { r.(eventOf := r.eventOf - {m}) }

  function Append(r: Redis, e: EventId): Redis { r.(stream := r.stream + [e]) }

  predicate Unacked(r: Redis, m: nat) { m < |r.stream| && m !in r.acked }

  function Acknowledge(r: Redis, m: nat): Redis { r.(acked := r.acked + {m}) }

  // ------------------------------------------------------------- processes and steps

  /** Where a relay stands inside `publish_event`. */
  datatype Relay =
    | Idle
    | Looked(e: EventId)           // the dedup key was absent
    | Reserved(e: EventId)         // SET NX succeeded
    | AppendFailed(e: EventId)     // XADD raised
    | Appended(e: EventId, m: nat) // XADD answered m
    | Linked(e: EventId, m: nat)   // the dedup key names m

  /** Where a consumer stands inside `_handle_received` and `xack`. */
  datatype Consumer =
    | Free
    | Holding(m: nat)
    | Handled(m: nat)
    | Marked(m: nat)               // the processed mark is committed
    | Counted(m: nat)              // XACK counted the entry
    | Found(m: nat, e: EventId)    // the message key named e
    | Cleared(m: nat)              // the dedup key is dealt with

  datatype System = System(
    redis: Redis,
    processed: set<EventId>,
    relays: map<RelayId, Relay>,
    consumers: map<ConsumerId, Consumer>,
    handled: map<ConsumerId, set<EventId>>,
    crashedMidAppend: set<EventId>)  // history: relays lost between reserving and appending

  function RelayOf(s: System, r: RelayId): Relay { if r in s.relays then s.relays[r] else Idle }
  function ConsumerOf(s: System, c: ConsumerId): Consumer { if c in s.consumers then s.consumers[c] else Free }
  function HandledBy(s: System, c: ConsumerId): set<EventId> { if c in s.handled then s.handled[c] else {} }

  datatype Step =
    | RelayGet(r: RelayId, e: EventId)
    | RelayReserve(r: RelayId)
    | RelayAppend(r: RelayId, fails: bool)
    | RelayUnreserve(r: RelayId)
    | RelayLink(r: RelayId)
    | RelayName(r: RelayId)
    | RelayCrash(r: RelayId)
    | ConsumerRead(c: ConsumerId, m: nat)
    | ConsumerHandle(c: ConsumerId)
    | ConsumerMark(c: ConsumerId)
    | ConsumerAck(c: ConsumerId)
    | ConsumerLookUp(c: ConsumerId)
    | ConsumerUnreserve(c: ConsumerId)
    | ConsumerForget(c: ConsumerId)
    | ConsumerFail(c: ConsumerId)   // an exception: the entry stays, the memory too
    | ConsumerCrash(c: ConsumerId)  // the process dies and forgets what it handled

  predicate IsRelayStep(step: Step) {
    step.RelayGet? || step.RelayReserve? || step.RelayAppend? || step.RelayUnreserve?
    || step.RelayLink? || step.RelayName? || step.RelayCrash?
  }

  function SetRelay(s: System, r: RelayId, pc: Relay): System { s.(relays := s.relays[r := pc]) }
  function SetConsumer(s: System, c: ConsumerId, pc: Consumer): System { s.(consumers := s.consumers[c := pc]) }

  function ApplyRelay(s: System, step: Step): System
    requires IsRelayStep(step)
  {
    var r := step.r;
    match (step, RelayOf(s, r))
    case (RelayGet(_, e), Idle) => if e in s.redis.dedup then s else SetRelay(s, r, Looked(e))
    case (RelayReserve(_), Looked(e)) =>
      SetRelay(s.(redis := SetIfAbsent(s.redis, e)), r, if e in s.redis.dedup then Idle else Reserved(e))
    case (RelayAppend(_, fails), Reserved(e)) =>
      if fails then SetRelay(s, r, AppendFailed(e))
      else SetRelay(s.(redis := Append(s.redis, e)), r, Appended(e, |s.redis.stream|))
    case (RelayUnreserve(_), AppendFailed(e)) => SetRelay(s.(redis := DeleteDedup(s.redis, e)), r, Idle)
    case (RelayLink(_), Appended(e, m)) => SetRelay(s.(redis := SetIfPresent(s.redis, e, m)), r, Linked(e, m))
    case (RelayName(_), Linked(e, m)) => SetRelay(s.(redis := SetEventOf(s.redis, m, e)), r, Idle)
    case (RelayCrash(_), pc) =>
      var lost := if pc.Reserved? || pc.AppendFailed? then {pc.e} else {};
      SetRelay(s.(crashedMidAppend := s.crashedMidAppend + lost), r, Idle)
    case _ => s
  }

  /** The entry is acknowledged; the rest of `xack` follows only if the command counted it. */
  function AckEntry(s: System, c: ConsumerId, m: nat): System
    requires m < |s.redis.stream|
  {
    if Unacked(s.redis, m) then SetConsumer(s.(redis := Acknowledge(s.redis, m)), c, Counted(m))
    else Remember(s, c, m)
  }

  /** The consumer is done with the entry and remembers its event. */
  function Remember(s: System, c: ConsumerId, m: nat): System
    requires m < |s.redis.stream|
  {
    SetConsumer(s.(handled := s.handled[c := HandledBy(s, c) + {s.redis.stream[m]}]), c, Free)
  }

  function ApplyConsumer(s: System, step: Step): System
    requires !IsRelayStep(step)
  {
    var c := step.c;
    var pc := ConsumerOf(s, c);
    if step.ConsumerFail? then SetConsumer(s, c, Free)
    else if step.ConsumerCrash? then SetConsumer(s.(handled := s.handled[c := {}]), c, Free)
    else if step.ConsumerRead? then
      if pc.Free? && Unacked(s.redis, step.m) then SetConsumer(s, c, Holding(step.m)) else s
    else if pc.Free? || pc.m >= |s.redis.stream| then s
    else
      var e := s.redis.stream[pc.m];
      match (step, pc)
      case (ConsumerHandle(_), Holding(m)) => if e in HandledBy(s, c) then s else SetConsumer(s, c, Handled(m))
      case (ConsumerMark(_), Handled(m)) => SetConsumer(s.(processed := s.processed + {e}), c, Marked(m))
      case (ConsumerAck(_), Marked(m)) => AckEntry(s, c, m)
      case (ConsumerAck(_), Holding(m)) => if e in HandledBy(s, c) then AckEntry(s, c, m) else s
      case (ConsumerLookUp(_), Counted(m)) =>
        SetConsumer(s, c, if m in s.redis.eventOf then Found(m, s.redis.eventOf[m]) else Cleared(m))
      case (ConsumerUnreserve(_), Found(m, named)) =>
        SetConsumer(s.(redis := DeleteDedup(s.redis, named)), c, Cleared(m))
      case (ConsumerForget(_), Cleared(m)) => Remember(s.(redis := DeleteEventOf(s.redis, m)), c, m)
      case _ => s
  }

  /** One atomic step; a step that the process is not ready for changes nothing. */
  function Apply(s: System, step: Step): System {
    if IsRelayStep(step) then ApplyRelay(s, step) else ApplyConsumer(s, step)
  }

  const START := System(Redis(map[], map[], [], {}), {}, map[], map[], map[], {})

  /** The state after any interleaving of steps. */
  function Run(steps: seq<Step>): System {
    if steps == [] then START else Apply(Run(steps[..|steps| - 1]), steps[|steps| - 1])
  }
}
