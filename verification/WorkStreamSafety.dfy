/** Dedup under interleaving: what every interleaving of relays and consumers keeps. */
module WorkStreamSafety {
  import opened Options
  import opened WorkStream

  // ----------------------------------------------------------------- the invariant

  /** Who may still delete the dedup key of an event. */
  datatype Holder = ByRelay(r: RelayId) | ByEntry(m: nat) | ByConsumer(c: ConsumerId, m: nat)

  ghost predicate RelaysHold(s: System, h: map<EventId, Holder>) {
    forall r :: r in s.relays ==>
      match s.relays[r]
      case Reserved(e) => e in h && h[e] == ByRelay(r)
      case AppendFailed(e) => e in h && h[e] == ByRelay(r)
      case Appended(e, m) => m < |s.redis.stream| && s.redis.stream[m] == e
      case Linked(e, m) => m < |s.redis.stream| && s.redis.stream[m] == e
      case _ => true
  }

  ghost predicate EntriesHold(s: System, h: map<EventId, Holder>) {
    forall m: nat :: Unacked(s.redis, m) ==> s.redis.stream[m] in h && h[s.redis.stream[m]] == ByEntry(m)
  }

  ghost predicate ConsumersHold(s: System, h: map<EventId, Holder>) {
    forall c :: c in s.consumers ==>
      var pc := s.consumers[c];
      && (!pc.Free? ==> pc.m < |s.redis.stream|)
      && (pc.Counted? || pc.Found? ==>
        pc.m in s.redis.acked && s.redis.stream[pc.m] in h && h[s.redis.stream[pc.m]] == ByConsumer(c, pc.m))
      && (pc.Found? ==> pc.e == s.redis.stream[pc.m])
      && (pc.Cleared? ==> pc.m in s.redis.acked)
      && (pc.Marked? ==> s.redis.stream[pc.m] in s.processed)
  }

  ghost predicate KeysHeld(s: System, h: map<EventId, Holder>) {
    && (forall e :: e in h ==> e in s.redis.dedup)
    && (forall e :: e in s.redis.dedup ==> e in h || e in s.processed || e in s.crashedMidAppend)
    && (forall m: nat :: m in s.redis.eventOf ==> m < |s.redis.stream| && s.redis.stream[m] == s.redis.eventOf[m])
  }

  ghost predicate HoldersReal(s: System, h: map<EventId, Holder>) {
    forall e :: e in h ==>
      match h[e]
      case ByRelay(r) => RelayOf(s, r) == Reserved(e) || RelayOf(s, r) == AppendFailed(e)
      case ByEntry(m) => Unacked(s.redis, m) && s.redis.stream[m] == e
      case ByConsumer(c, m) => m in s.redis.acked && m < |s.redis.stream| && s.redis.stream[m] == e
  }

  ghost predicate ProcessedFirst(s: System) {
    && (forall m: nat :: m in s.redis.acked ==> m < |s.redis.stream| && s.redis.stream[m] in s.processed)
    && (forall c :: c in s.handled ==> s.handled[c] <= s.processed)
  }

  ghost predicate Inv(s: System, h: map<EventId, Holder>) {
    RelaysHold(s, h) && EntriesHold(s, h) && ConsumersHold(s, h) && KeysHeld(s, h) && HoldersReal(s, h)
      && ProcessedFirst(s)
  }

  /** How one step moves the right to delete a dedup key. */
  ghost function NextHolders(s: System, step: Step, h: map<EventId, Holder>): map<EventId, Holder> {
    match step
    case RelayReserve(r) =>
      (match RelayOf(s, r) case Looked(e) => (if e in s.redis.dedup then h else h[e := ByRelay(r)]) case _ => h)
    case RelayAppend(r, fails) =>
      (match RelayOf(s, r) case Reserved(e) => (if fails then h else h[e := ByEntry(|s.redis.stream|)]) case _ => h)
    case RelayUnreserve(r) => (match RelayOf(s, r) case AppendFailed(e) => h - {e} case _ => h)
    case RelayCrash(r) =>
      (match RelayOf(s, r) case Reserved(e) => h - {e} case AppendFailed(e) => h - {e} case _ => h)
    case ConsumerAck(c) =>
      var pc := ConsumerOf(s, c);
      if !pc.Free? && Unacked(s.redis, pc.m) && (pc.Marked? || (pc.Holding? && s.redis.stream[pc.m] in HandledBy(s, c)))
      then h[s.redis.stream[pc.m] := ByConsumer(c, pc.m)] else h
    case ConsumerLookUp(c) =>
      (match ConsumerOf(s, c)
       case Counted(m) => (if m in s.redis.eventOf || m >= |s.redis.stream| then h
         else h - {s.redis.stream[m]}) case _ => h)
    case ConsumerUnreserve(c) => (match ConsumerOf(s, c) case Found(_, e) => h - {e} case _ => h)
    case ConsumerFail(c) =>
      var pc := ConsumerOf(s, c);
      if (pc.Counted? || pc.Found?) && pc.m < |s.redis.stream| then h - {s.redis.stream[pc.m]} else h
    case ConsumerCrash(c) =>
      var pc := ConsumerOf(s, c);
      if (pc.Counted? || pc.Found?) && pc.m < |s.redis.stream| then h - {s.redis.stream[pc.m]} else h
    case _ => h
  }

  // Each kind of step keeps the invariant.

  lemma RelayGetKeeps(s: System, step: Step, h: map<EventId, Holder>)
    requires Inv(s, h) && step.RelayGet?
    ensures Inv(Apply(s, step), NextHolders(s, step, h))
  {
  }

  lemma RelayReserveKeepsHolds(s: System, step: Step, h: map<EventId, Holder>)
    requires Inv(s, h) && step.RelayReserve?
    ensures var s', h' := Apply(s, step), NextHolders(s, step, h);
            RelaysHold(s', h') && EntriesHold(s', h') && ConsumersHold(s', h')
  {
  }

  lemma RelayReserveKeepsKeys(s: System, step: Step, h: map<EventId, Holder>)
    requires Inv(s, h) && step.RelayReserve?
    ensures var s', h' := Apply(s, step), NextHolders(s, step, h);
            KeysHeld(s', h') && HoldersReal(s', h') && ProcessedFirst(s')
  {
  }

  lemma RelayReserveKeeps(s: System, step: Step, h: map<EventId, Holder>)
    requires Inv(s, h) && step.RelayReserve?
    ensures Inv(Apply(s, step), NextHolders(s, step, h))
  {
    RelayReserveKeepsHolds(s, step, h);
    RelayReserveKeepsKeys(s, step, h);
  }

  /** The new entry is the only un-acknowledged one of its event: the reservation excluded others. */
  lemma AppendedKeepsHolds(s: System, r: RelayId, e: EventId, h: map<EventId, Holder>)
    requires Inv(s, h) && RelayOf(s, r) == Reserved(e)
    ensures var s' := SetRelay(s.(redis := Append(s.redis, e)), r, Appended(e, |s.redis.stream|));
            var h' := h[e := ByEntry(|s.redis.stream|)];
            RelaysHold(s', h') && EntriesHold(s', h') && ConsumersHold(s', h')
  {
    var n := |s.redis.stream|;
    var stream' := s.redis.stream + [e];
    assert forall m: nat :: m < n ==> stream'[m] == s.redis.stream[m];
    assert n !in s.redis.acked;
    assert forall m: nat :: m < n && m !in s.redis.acked ==> Unacked(s.redis, m) && s.redis.stream[m] != e;
  }

  lemma AppendedKeepsKeys(s: System, r: RelayId, e: EventId, h: map<EventId, Holder>)
    requires Inv(s, h) && RelayOf(s, r) == Reserved(e)
    ensures var s' := SetRelay(s.(redis := Append(s.redis, e)), r, Appended(e, |s.redis.stream|));
            var h' := h[e := ByEntry(|s.redis.stream|)];
            KeysHeld(s', h') && HoldersReal(s', h') && ProcessedFirst(s')
  {
    var stream' := s.redis.stream + [e];
    assert forall m: nat :: m < |s.redis.stream| ==> stream'[m] == s.redis.stream[m];
    assert |s.redis.stream| !in s.redis.acked;
  }

  lemma AppendedKeeps(s: System, r: RelayId, e: EventId, h: map<EventId, Holder>)
    requires Inv(s, h) && RelayOf(s, r) == Reserved(e)
    ensures Inv(SetRelay(s.(redis := Append(s.redis, e)), r, Appended(e, |s.redis.stream|)),
              h[e := ByEntry(|s.redis.stream|)])
  {
    AppendedKeepsHolds(s, r, e, h);
    AppendedKeepsKeys(s, r, e, h);
  }

  lemma RelayAppendKeeps(s: System, step: Step, h: map<EventId, Holder>)
    requires Inv(s, h) && step.RelayAppend?
    ensures Inv(Apply(s, step), NextHolders(s, step, h))
  {
    var pc := RelayOf(s, step.r);
    if pc.Reserved? && !step.fails {
      AppendedKeeps(s, step.r, pc.e, h);
    }
  }

  lemma RelayUnreserveKeeps(s: System, step: Step, h: map<EventId, Holder>)
    requires Inv(s, h) && step.RelayUnreserve?
    ensures Inv(Apply(s, step), NextHolders(s, step, h))
  {
  }

  lemma RelayLinkKeeps(s: System, step: Step, h: map<EventId, Holder>)
    requires Inv(s, h) && step.RelayLink?
    ensures Inv(Apply(s, step), NextHolders(s, step, h))
  {
  }

  lemma RelayNameKeeps(s: System, step: Step, h: map<EventId, Holder>)
    requires Inv(s, h) && step.RelayName?
    ensures Inv(Apply(s, step), NextHolders(s, step, h))
  {
  }

  lemma RelayCrashKeeps(s: System, step: Step, h: map<EventId, Holder>)
    requires Inv(s, h) && step.RelayCrash?
    ensures Inv(Apply(s, step), NextHolders(s, step, h))
  {
  }

  lemma ConsumerReadKeeps(s: System, step: Step, h: map<EventId, Holder>)
    requires Inv(s, h) && step.ConsumerRead?
    ensures Inv(Apply(s, step), NextHolders(s, step, h))
  {
  }

  lemma ConsumerHandleKeeps(s: System, step: Step, h: map<EventId, Holder>)
    requires Inv(s, h) && step.ConsumerHandle?
    ensures Inv(Apply(s, step), NextHolders(s, step, h))
  {
  }

  lemma ConsumerMarkKeeps(s: System, step: Step, h: map<EventId, Holder>)
    requires Inv(s, h) && step.ConsumerMark?
    ensures Inv(Apply(s, step), NextHolders(s, step, h))
  {
  }

  lemma CountedKeeps(s: System, c: ConsumerId, m: nat, h: map<EventId, Holder>)
    requires Inv(s, h) && Unacked(s.redis, m) && s.redis.stream[m] in s.processed
    requires ConsumerOf(s, c).Marked? || ConsumerOf(s, c).Holding?
    ensures Inv(AckEntry(s, c, m), h[s.redis.stream[m] := ByConsumer(c, m)])
  {
  }

  lemma RememberKeeps(s: System, c: ConsumerId, m: nat, h: map<EventId, Holder>)
    requires Inv(s, h) && m < |s.redis.stream| && s.redis.stream[m] in s.processed
    requires !ConsumerOf(s, c).Counted? && !ConsumerOf(s, c).Found?
    ensures Inv(Remember(s, c, m), h)
  {
  }

  /** XACK counts an entry once, and the counted consumer alone inherits the dedup key. */
  lemma ConsumerAckKeeps(s: System, step: Step, h: map<EventId, Holder>)
    requires Inv(s, h) && step.ConsumerAck?
    ensures Inv(Apply(s, step), NextHolders(s, step, h))
  {
    var pc := ConsumerOf(s, step.c);
    if !pc.Free? && (pc.Marked? || (pc.Holding? && s.redis.stream[pc.m] in HandledBy(s, step.c))) {
      if Unacked(s.redis, pc.m) {
        CountedKeeps(s, step.c, pc.m, h);
      } else {
        RememberKeeps(s, step.c, pc.m, h);
      }
    }
  }

  lemma ConsumerLookUpKeepsHolds(s: System, step: Step, h: map<EventId, Holder>)
    requires Inv(s, h) && step.ConsumerLookUp?
    ensures var s', h' := Apply(s, step), NextHolders(s, step, h);
            RelaysHold(s', h') && EntriesHold(s', h') && ConsumersHold(s', h')
  {
  }

  lemma ConsumerLookUpKeepsKeys(s: System, step: Step, h: map<EventId, Holder>)
    requires Inv(s, h) && step.ConsumerLookUp?
    ensures var s', h' := Apply(s, step), NextHolders(s, step, h);
            KeysHeld(s', h') && HoldersReal(s', h') && ProcessedFirst(s')
  {
  }

  lemma ConsumerLookUpKeeps(s: System, step: Step, h: map<EventId, Holder>)
    requires Inv(s, h) && step.ConsumerLookUp?
    ensures Inv(Apply(s, step), NextHolders(s, step, h))
  {
    ConsumerLookUpKeepsHolds(s, step, h);
    ConsumerLookUpKeepsKeys(s, step, h);
  }

  lemma ConsumerUnreserveKeepsHolds(s: System, step: Step, h: map<EventId, Holder>)
    requires Inv(s, h) && step.ConsumerUnreserve?
    ensures var s', h' := Apply(s, step), NextHolders(s, step, h);
            RelaysHold(s', h') && EntriesHold(s', h') && ConsumersHold(s', h')
  {
  }

  lemma ConsumerUnreserveKeepsKeys(s: System, step: Step, h: map<EventId, Holder>)
    requires Inv(s, h) && step.ConsumerUnreserve?
    ensures var s', h' := Apply(s, step), NextHolders(s, step, h);
            KeysHeld(s', h') && HoldersReal(s', h') && ProcessedFirst(s')
  {
  }

  lemma ConsumerUnreserveKeeps(s: System, step: Step, h: map<EventId, Holder>)
    requires Inv(s, h) && step.ConsumerUnreserve?
    ensures Inv(Apply(s, step), NextHolders(s, step, h))
  {
    ConsumerUnreserveKeepsHolds(s, step, h);
    ConsumerUnreserveKeepsKeys(s, step, h);
  }

  lemma ConsumerForgetKeepsHolds(s: System, step: Step, h: map<EventId, Holder>)
    requires Inv(s, h) && step.ConsumerForget?
    ensures var s', h' := Apply(s, step), NextHolders(s, step, h);
            RelaysHold(s', h') && EntriesHold(s', h') && ConsumersHold(s', h')
  {
  }

  lemma ConsumerForgetKeepsKeys(s: System, step: Step, h: map<EventId, Holder>)
    requires Inv(s, h) && step.ConsumerForget?
    ensures var s', h' := Apply(s, step), NextHolders(s, step, h);
            KeysHeld(s', h') && HoldersReal(s', h') && ProcessedFirst(s')
  {
  }

  lemma ConsumerForgetKeeps(s: System, step: Step, h: map<EventId, Holder>)
    requires Inv(s, h) && step.ConsumerForget?
    ensures Inv(Apply(s, step), NextHolders(s, step, h))
  {
    ConsumerForgetKeepsHolds(s, step, h);
    ConsumerForgetKeepsKeys(s, step, h);
  }

  lemma ConsumerFailKeepsHolds(s: System, step: Step, h: map<EventId, Holder>)
    requires Inv(s, h) && step.ConsumerFail?
    ensures var s', h' := Apply(s, step), NextHolders(s, step, h);
            RelaysHold(s', h') && EntriesHold(s', h') && ConsumersHold(s', h')
  {
  }

  lemma ConsumerFailKeepsKeys(s: System, step: Step, h: map<EventId, Holder>)
    requires Inv(s, h) && step.ConsumerFail?
    ensures var s', h' := Apply(s, step), NextHolders(s, step, h);
            KeysHeld(s', h') && HoldersReal(s', h') && ProcessedFirst(s')
  {
  }

  lemma ConsumerFailKeeps(s: System, step: Step, h: map<EventId, Holder>)
    requires Inv(s, h) && step.ConsumerFail?
    ensures Inv(Apply(s, step), NextHolders(s, step, h))
  {
    ConsumerFailKeepsHolds(s, step, h);
    ConsumerFailKeepsKeys(s, step, h);
  }

  lemma ConsumerCrashKeepsHolds(s: System, step: Step, h: map<EventId, Holder>)
    requires Inv(s, h) && step.ConsumerCrash?
    ensures var s', h' := Apply(s, step), NextHolders(s, step, h);
            RelaysHold(s', h') && EntriesHold(s', h') && ConsumersHold(s', h')
  {
  }

  lemma ConsumerCrashKeepsKeys(s: System, step: Step, h: map<EventId, Holder>)
    requires Inv(s, h) && step.ConsumerCrash?
    ensures var s', h' := Apply(s, step), NextHolders(s, step, h);
            KeysHeld(s', h') && HoldersReal(s', h') && ProcessedFirst(s')
  {
  }

  lemma ConsumerCrashKeeps(s: System, step: Step, h: map<EventId, Holder>)
    requires Inv(s, h) && step.ConsumerCrash?
    ensures Inv(Apply(s, step), NextHolders(s, step, h))
  {
    ConsumerCrashKeepsHolds(s, step, h);
    ConsumerCrashKeepsKeys(s, step, h);
  }

  lemma StepKeeps(s: System, step: Step, h: map<EventId, Holder>)
    requires Inv(s, h)
    ensures Inv(Apply(s, step), NextHolders(s, step, h))
  {
    match step
    case RelayGet(_, _) => RelayGetKeeps(s, step, h);
    case RelayReserve(_) => RelayReserveKeeps(s, step, h);
    case RelayAppend(_, _) => RelayAppendKeeps(s, step, h);
    case RelayUnreserve(_) => RelayUnreserveKeeps(s, step, h);
    case RelayLink(_) => RelayLinkKeeps(s, step, h);
    case RelayName(_) => RelayNameKeeps(s, step, h);
    case RelayCrash(_) => RelayCrashKeeps(s, step, h);
    case ConsumerRead(_, _) => ConsumerReadKeeps(s, step, h);
    case ConsumerHandle(_) => ConsumerHandleKeeps(s, step, h);
    case ConsumerMark(_) => ConsumerMarkKeeps(s, step, h);
    case ConsumerAck(_) => ConsumerAckKeeps(s, step, h);
    case ConsumerLookUp(_) => ConsumerLookUpKeeps(s, step, h);
    case ConsumerUnreserve(_) => ConsumerUnreserveKeeps(s, step, h);
    case ConsumerForget(_) => ConsumerForgetKeeps(s, step, h);
    case ConsumerFail(_) => ConsumerFailKeeps(s, step, h);
    case ConsumerCrash(_) => ConsumerCrashKeeps(s, step, h);
  }

  /** Every interleaving keeps the invariant. */
  lemma {:induction false} RunKeeps(steps: seq<Step>) returns (h: map<EventId, Holder>)
    ensures Inv(Run(steps), h)
  {
    if steps == [] {
      h := map[];
    } else {
      var before := RunKeeps(steps[..|steps| - 1]);
      StepKeeps(Run(steps[..|steps| - 1]), steps[|steps| - 1], before);
      h := NextHolders(Run(steps[..|steps| - 1]), steps[|steps| - 1], before);
    }
  }

  // ------------------------------------------------------------------- what it means

  /** Dedup under interleaving: at any moment an event has at most one un-acknowledged entry,
      and such an entry implies that its dedup key is present. */
  lemma AtMostOneEntry(steps: seq<Step>, m: nat, n: nat)
    requires Unacked(Run(steps).redis, m) && Unacked(Run(steps).redis, n)
    requires Run(steps).redis.stream[m] == Run(steps).redis.stream[n]
    ensures m == n
    ensures Run(steps).redis.stream[m] in Run(steps).redis.dedup
  {
    var h := RunKeeps(steps);
  }

  /** An entry is acknowledged only if its event was marked processed before. */
  lemma AckedWasProcessed(steps: seq<Step>, m: nat)
    requires m in Run(steps).redis.acked
    ensures m < |Run(steps).redis.stream| && Run(steps).redis.stream[m] in Run(steps).processed
  {
    var h := RunKeeps(steps);
  }

  ghost predicate LiveReservation(s: System, e: EventId) {
    exists r :: r in s.relays && (s.relays[r] == Reserved(e) || s.relays[r] == AppendFailed(e))
  }

  ghost predicate HasEntry(s: System, e: EventId) {
    exists m: nat :: Unacked(s.redis, m) && s.redis.stream[m] == e
  }

  /** The event can be published again, is about to be appended or released, or waits in the stream. */
  ghost predicate Recoverable(s: System, e: EventId) {
    e !in s.redis.dedup || LiveReservation(s, e) || HasEntry(s, e)
  }

  /** No event is lost: an unprocessed event is recoverable unless a relay crashed between
      reserving it and appending it. */
  lemma NoEventLost(steps: seq<Step>, e: EventId)
    requires e !in Run(steps).processed && e !in Run(steps).crashedMidAppend
    ensures Recoverable(Run(steps), e)
  {
    var s := Run(steps);
    var h := RunKeeps(steps);
    if e in s.redis.dedup {
      assert e in h;
      match h[e]
      case ByRelay(r) => assert r in s.relays;
      case ByEntry(m) => assert Unacked(s.redis, m);
      case ByConsumer(_, _) =>
    }
  }

  /** A crash there is final: nothing any process does brings the event back. */
  lemma {:induction false} CrashIsFinal(steps: seq<Step>, e: EventId)
    requires e !in Run(steps).processed && e in Run(steps).crashedMidAppend
    ensures !Recoverable(Run(steps), e)
  {
    var front, step := steps[..|steps| - 1], steps[|steps| - 1];
    var h := RunKeeps(front);
    MarksStay(Run(front), step);
    if e in Run(front).crashedMidAppend {
      CrashIsFinal(front, e);
    }
    CrashStep(Run(front), step, h, e);
  }

  lemma MarksStay(s: System, step: Step)
    ensures s.processed <= Apply(s, step).processed
  {
  }

  lemma CrashStep(s: System, step: Step, h: map<EventId, Holder>, e: EventId)
    requires Inv(s, h) && e !in s.processed && e !in Apply(s, step).processed
    requires e in Apply(s, step).crashedMidAppend && (e in s.crashedMidAppend ==> !Recoverable(s, e))
    ensures !Recoverable(Apply(s, step), e)
  {
    if e in s.crashedMidAppend {
      StaysLost(s, step, h, e);
    } else {
      CrashLoses(s, step, h, e);
    }
  }

  lemma CrashLoses(s: System, step: Step, h: map<EventId, Holder>, e: EventId)
    requires Inv(s, h) && e !in s.processed
    requires e !in s.crashedMidAppend && e in Apply(s, step).crashedMidAppend
    ensures !Recoverable(Apply(s, step), e)
  {
  }

  lemma StaysLost(s: System, step: Step, h: map<EventId, Holder>, e: EventId)
    requires Inv(s, h) && !Recoverable(s, e) && e !in Apply(s, step).processed
    ensures !Recoverable(Apply(s, step), e)
  {
    if IsRelayStep(step) {
      StaysLostByRelay(s, step, h, e);
    } else {
      StaysLostByConsumer(s, step, h, e);
    }
  }

  lemma StaysLostByRelay(s: System, step: Step, h: map<EventId, Holder>, e: EventId)
    requires Inv(s, h) && !Recoverable(s, e) && IsRelayStep(step)
    ensures !Recoverable(ApplyRelay(s, step), e)
  {
  }

  lemma StaysLostByConsumer(s: System, step: Step, h: map<EventId, Holder>, e: EventId)
    requires Inv(s, h) && !Recoverable(s, e) && !IsRelayStep(step)
    requires e !in ApplyConsumer(s, step).processed
    ensures !Recoverable(ApplyConsumer(s, step), e)
  {
  }

  /** Such a crash can happen: a relay reserves the event and dies before it appends it. */
  lemma CrashMidAppend(r: RelayId, e: EventId)
    ensures var s := Run([RelayGet(r, e), RelayReserve(r), RelayCrash(r)]);
            e !in s.processed && e in s.crashedMidAppend && !Recoverable(s, e)
  {
    var one, two, steps := [RelayGet(r, e)], [RelayGet(r, e), RelayReserve(r)],
      [RelayGet(r, e), RelayReserve(r), RelayCrash(r)];
    assert one[..0] == [] && two[..1] == one && steps[..2] == two;
    assert Run([]) == START;
    assert Run(one) == Apply(START, RelayGet(r, e)) && RelayOf(Run(one), r) == Looked(e);
    assert Run(two) == Apply(Run(one), RelayReserve(r)) && RelayOf(Run(two), r) == Reserved(e);
    assert Run(steps) == Apply(Run(two), RelayCrash(r));
    CrashIsFinal(steps, e);
  }

  /** An unprocessed event can still reach a consumer exactly when no relay crashed between
      reserving and appending it. */
  lemma RecoverableIff(steps: seq<Step>, e: EventId)
    requires e !in Run(steps).processed
    ensures Recoverable(Run(steps), e) <==> e !in Run(steps).crashedMidAppend
  {
    if e in Run(steps).crashedMidAppend {
      CrashIsFinal(steps, e);
    } else {
      NoEventLost(steps, e);
    }
  }
}
