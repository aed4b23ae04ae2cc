/**
  The Redis conversation lock (coke/infra/redis.py, coke/turn/locks.py): SET NX PX, the
  extend-if-owned and release-if-owned scripts, and the validity each holder was promised.
  Time is the store's clock in milliseconds; an expired key reads as absent.
*/
module ConversationLock {
  import opened Options

  type Key(==, !new)
  type Token(==, !new)

  datatype Entry = Entry(token: Token, expires: nat)

  /** The frozen lock record a successful acquisition hands out. */
  datatype Record = Record(key: Key, ttl: nat)

  /** A promise to one holder: the lock is its own from `from` up to, not including, `until`. */
  datatype Grant = Grant(key: Key, token: Token, from: nat, until: nat)

  /** The lock keys and the clock; then, as history, the records handed out and the promises made. */
  datatype Store = Store(locks: map<Key, Entry>, now: nat, records: map<Token, Record>, grants: seq<Grant>)

  predicate Live(s: Store, key: Key) { key in s.locks && s.now < s.locks[key].expires }

  /** Whose lock it is at this moment. */
  function Owner(s: Store, key: Key): Option<Token> {
    if Live(s, key) then Some(s.locks[key].token) else None
  }

  datatype Step =
    | Acquire(key: Key, token: Token, ttl: nat)
    | Heartbeat(token: Token)
    | Release(token: Token)
    | Tick(elapsed: nat)

  /** The entry is set to expire `ttl` from now and the holder is promised that long. */
  function Hold(s: Store, key: Key, token: Token, ttl: nat): Store {
    s.(locks := s.locks[key := Entry(token, s.now + ttl)], grants := s.grants + [Grant(key, token, s.now, s.now + ttl)])
  }

  /** Its own release ends every promise made to a holder. */
  function Truncated(gs: seq<Grant>, token: Token, now: nat): (r: seq<Grant>)
    ensures |r| == |gs|
  {
    seq(|gs|, k requires 0 <= k < |gs| => if gs[k].token == token && now < gs[k].until then gs[k].(until := now)
      else gs[k])
  }

  /** One command. A token in use is never drawn again, so acquiring with one does nothing. */
  function Apply(s: Store, step: Step): Store {
    match step
    case Acquire(key, token, ttl) =>
      if Live(s, key) || token in s.records then s
      else Hold(s, key, token, ttl).(records := s.records[token := Record(key, ttl)])
    case Heartbeat(token) =>
      if token in s.records && Owner(s, s.records[token].key) == Some(token)
      then Hold(s, s.records[token].key, token, s.records[token].ttl) else s
    case Release(token) =>
      if token in s.records && Owner(s, s.records[token].key) == Some(token)
      then s.(locks := s.locks - {s.records[token].key}, grants := Truncated(s.grants, token, s.now)) else s
    case Tick(elapsed) => s.(now := s.now + elapsed)
  }

  const START := Store(map[], 0, map[], [])

  function Run(steps: seq<Step>): Store {
    if steps == [] then START else Apply(Run(steps[..|steps| - 1]), steps[|steps| - 1])
  }

  // ------------------------------------------------------------------- the invariant

  /** A promise that reaches beyond now belongs to the live holder and ends with its entry. */
  ghost predicate Covered(s: Store, g: Grant) {
    && g.from <= g.until && g.from <= s.now
    && g.token in s.records && s.records[g.token].key == g.key
    && (s.now < g.until ==> Live(s, g.key) && s.locks[g.key].token == g.token && g.until <= s.locks[g.key].expires)
  }

  /** The promise is in force at time `t`. */
  predicate ValidAt(g: Grant, t: nat) { g.from <= t < g.until }

  ghost predicate Disjoint(a: Grant, b: Grant) {
    forall t: nat :: !(ValidAt(a, t) && ValidAt(b, t))
  }

  ghost predicate GrantsCovered(s: Store) {
    forall k :: 0 <= k < |s.grants| ==> Covered(s, s.grants[k])
  }

  ghost predicate EntriesRecorded(s: Store) {
    forall key :: Live(s, key) ==>
      var e := s.locks[key];
      e.token in s.records && s.records[e.token].key == key && e.expires <= s.now + s.records[e.token].ttl
  }

  ghost predicate GrantsDisjoint(s: Store) {
    forall j, k ::
      0 <= j < k < |s.grants| && s.grants[j].key == s.grants[k].key && s.grants[j].token != s.grants[k].token ==>
      Disjoint(s.grants[j], s.grants[k])
  }

  ghost predicate Inv(s: Store) { GrantsCovered(s) && EntriesRecorded(s) && GrantsDisjoint(s) }

  /** A new promise starts now, and every other holder's promise for the key has ended. */
  lemma HoldKeeps(s: Store, key: Key, token: Token, ttl: nat)
    requires Inv(s)
    requires token in s.records && s.records[token] == Record(key, ttl)
    requires Live(s, key) ==> s.locks[key].token == token
    ensures Inv(Hold(s, key, token, ttl))
  {
    var s' := Hold(s, key, token, ttl);
    var n := |s.grants|;
    forall k | 0 <= k < n ensures Covered(s, s.grants[k]) && s'.grants[k] == s.grants[k] && Covered(s', s.grants[k]) {
    }
    forall j, k | 0 <= j < k < |s'.grants| && s'.grants[j].key == s'.grants[k].key
           && s'.grants[j].token != s'.grants[k].token
      ensures Disjoint(s'.grants[j], s'.grants[k])
    {
      if k < n {
        assert Disjoint(s.grants[j], s.grants[k]);
      } else {
        assert Covered(s, s.grants[j]);
      }
    }
  }

  lemma ReleaseKeeps(s: Store, token: Token)
    requires Inv(s)
    ensures Inv(Apply(s, Release(token)))
  {
    var s' := Apply(s, Release(token));
    if s' != s {
      forall k | 0 <= k < |s.grants| ensures Covered(s', s'.grants[k]) {
        assert Covered(s, s.grants[k]);
      }
      forall j, k | 0 <= j < k < |s.grants| && s'.grants[j].key == s'.grants[k].key
             && s'.grants[j].token != s'.grants[k].token
        ensures Disjoint(s'.grants[j], s'.grants[k])
      {
        var a, b := s.grants[j], s.grants[k];
        assert Disjoint(a, b);
        assert forall t: nat :: ValidAt(s'.grants[j], t) ==> ValidAt(a, t);
        assert forall t: nat :: ValidAt(s'.grants[k], t) ==> ValidAt(b, t);
      }
    }
  }

  /** A fresh token is written down before it is used. */
  lemma DrawnKeeps(s: Store, key: Key, token: Token, ttl: nat)
    requires Inv(s) && token !in s.records
    ensures Inv(s.(records := s.records[token := Record(key, ttl)]))
  {
    assert forall k :: 0 <= k < |s.grants| ==> Covered(s, s.grants[k]);
  }

  lemma TickKeeps(s: Store, step: Step)
    requires Inv(s) && step.Tick?
    ensures Inv(Apply(s, step))
  {
    assert forall key :: Live(Apply(s, step), key) ==> Live(s, key);
    assert forall k :: 0 <= k < |s.grants| ==> Covered(s, s.grants[k]);
  }

  lemma StepKeeps(s: Store, step: Step)
    requires Inv(s)
    ensures Inv(Apply(s, step))
  {
    match step
    case Acquire(key, token, ttl) =>
      if !Live(s, key) && token !in s.records {
        DrawnKeeps(s, key, token, ttl);
        HoldKeeps(s.(records := s.records[token := Record(key, ttl)]), key, token, ttl);
      }
    case Heartbeat(token) =>
      if token in s.records && Owner(s, s.records[token].key) == Some(token) {
        HoldKeeps(s, s.records[token].key, token, s.records[token].ttl);
      }
    case Release(token) => ReleaseKeeps(s, token);
    case Tick(_) => TickKeeps(s, step);
  }

  lemma {:induction false} RunKeeps(steps: seq<Step>)
    ensures Inv(Run(steps))
  {
    if steps != [] {
      RunKeeps(steps[..|steps| - 1]);
      StepKeeps(Run(steps[..|steps| - 1]), steps[|steps| - 1]);
    }
  }

  /** Lock exclusion over time: over every interleaving, no instant lies in validity intervals
      granted to two different holders of the same lock. */
  lemma ValidityNeverOverlaps(steps: seq<Step>, j: nat, k: nat, t: nat)
    requires j < |Run(steps).grants| && k < |Run(steps).grants|
    requires var a, b := Run(steps).grants[j], Run(steps).grants[k]; a.key == b.key && a.token != b.token
    ensures !(ValidAt(Run(steps).grants[j], t) && ValidAt(Run(steps).grants[k], t))
  {
    RunKeeps(steps);
    assert j != k;
    if j < k {
      assert Disjoint(Run(steps).grants[j], Run(steps).grants[k]);
    } else {
      assert Disjoint(Run(steps).grants[k], Run(steps).grants[j]);
    }
  }

  /** While a promise lasts, the store agrees that the lock is that holder's. */
  lemma PromiseIsKept(steps: seq<Step>, k: nat)
    requires k < |Run(steps).grants|
    requires Run(steps).now < Run(steps).grants[k].until
    ensures Owner(Run(steps), Run(steps).grants[k].key) == Some(Run(steps).grants[k].token)
  {
    RunKeeps(steps);
    assert Covered(Run(steps), Run(steps).grants[k]);
  }

  /** Nothing but time and the holder's own release ends a promise: whatever another process does,
      the lock is still that holder's afterwards. */
  lemma PromiseSurvivesOthers(steps: seq<Step>, step: Step, k: nat)
    requires k < |Run(steps).grants| && Run(steps).now < Run(steps).grants[k].until
    requires !step.Tick? && step != Release(Run(steps).grants[k].token)
    ensures var g := Run(steps).grants[k]; Owner(Run(steps + [step]), g.key) == Some(g.token)
  {
    assert (steps + [step])[..|steps|] == steps;
    assert Run(steps + [step]) == Apply(Run(steps), step);
    PromiseIsKept(steps + [step], k);
  }

  /** A heartbeat or release by one holder leaves a key held by another as it was. */
  lemma OthersUntouched(s: Store, step: Step, key: Key)
    requires step.Heartbeat? || step.Release?
    requires Live(s, key) && s.locks[key].token != step.token
    ensures key in Apply(s, step).locks && Apply(s, step).locks[key] == s.locks[key]
    ensures Owner(Apply(s, step), key) == Owner(s, key)
  {
  }

  /** The key is the holder's, and not expired. */
  predicate Holds(s: Store, key: Key, token: Token) {
    key in s.locks && s.locks[key].token == token && s.now < s.locks[key].expires
  }

  /** In every reachable state, a holder that releases leaves the key to whoever asks next. */
  lemma ReleasedCanBeTaken(steps: seq<Step>, key: Key, token: Token, next: Token, ttl: nat)
    requires Holds(Run(steps), key, token) && next !in Run(steps).records && ttl > 0
    ensures key !in Run(steps + [Release(token)]).locks
    ensures Holds(Run(steps + [Release(token)] + [Acquire(key, next, ttl)]), key, next)
  {
    RunKeeps(steps);
    var released := steps + [Release(token)];
    var taken := released + [Acquire(key, next, ttl)];
    assert released[..|steps|] == steps && taken[..|released|] == released;
    assert Live(Run(steps), key);
    assert Run(released) == Apply(Run(steps), Release(token));
    assert Run(taken) == Apply(Run(released), Acquire(key, next, ttl));
  }

  /** In every reachable state, a holder that sends a heartbeat has its whole time to live again,
      and nobody else's key changes. */
  lemma HeartbeatExtends(steps: seq<Step>, key: Key, token: Token)
    requires Holds(Run(steps), key, token)
    ensures var s := Run(steps); var s' := Run(steps + [Heartbeat(token)]);
            && token in s.records && s'.now == s.now
            && s'.locks == s.locks[key := Entry(token, s.now + s.records[token].ttl)]
  {
    RunKeeps(steps);
    assert Live(Run(steps), key);
    assert (steps + [Heartbeat(token)])[..|steps|] == steps;
  }

  /** A key nobody holds, or that expired, is acquired with the time to live asked for; a held one is not. */
  lemma AcquiredIffFree(steps: seq<Step>, key: Key, token: Token, ttl: nat)
    requires token !in Run(steps).records
    ensures var s := Run(steps); var s' := Run(steps + [Acquire(key, token, ttl)]);
            if key in s.locks && s.now < s.locks[key].expires then s' == s
            else s'.now == s.now && s'.locks == s.locks[key := Entry(token, s.now + ttl)]
                 && s'.records == s.records[token := Record(key, ttl)]
  {
    assert (steps + [Acquire(key, token, ttl)])[..|steps|] == steps;
  }

  // --------------------------------------------------------------------- the objects

  /** What `acquire` returns: the frozen record, with its token. */
  datatype Lock = Lock(key: Key, token: Token, ttl: nat)

  class ConversationLockManager {
    var store: Store
    var lockLosses: seq<Token>   // the "lock_loss" events recorded

    constructor ()
      ensures store == START && lockLosses == []
    {
      store := START;
      lockLosses := [];
    }

    method Acquire(key: Key, token: Token, ttl: nat) returns (lock: Option<Lock>)
      requires token !in store.records
      modifies this`store
      ensures store == Apply(old(store), Step.Acquire(key, token, ttl))
      ensures lock.None? <==> key in old(store).locks && old(store).now < old(store).locks[key].expires
      ensures lock.None? ==> store == old(store)
      ensures lock.Some? ==>
                && lock.value == Lock(key, token, ttl) && store.now == old(store).now
                && store.locks == old(store).locks[key := Entry(token, store.now + ttl)]
    {
      if Live(store, key) {
        return None;
      }
      store := store.(locks := store.locks[key := Entry(token, store.now + ttl)],
                      records := store.records[token := Record(key, ttl)],
                      grants := store.grants + [Grant(key, token, store.now, store.now + ttl)]);
      return Some(Lock(key, token, ttl));
    }

    method HeartbeatLock(lock: Lock) returns (extended: bool)
      requires lock.token in store.records && store.records[lock.token] == Record(lock.key, lock.ttl)
      modifies this
      ensures store == Apply(old(store), Heartbeat(lock.token))
      ensures extended <==>
              && lock.key in old(store).locks && old(store).now < old(store).locks[lock.key].expires
              && old(store).locks[lock.key].token == lock.token
      ensures extended ==>
                && store.now == old(store).now
                && store.locks == old(store).locks[lock.key := Entry(lock.token, store.now + lock.ttl)]
      ensures !extended ==> store == old(store)
      ensures lockLosses == if extended then old(lockLosses) else old(lockLosses) + [lock.token]
    {
      extended := Owner(store, lock.key) == Some(lock.token);
      if extended {
        store := Hold(store, lock.key, lock.token, lock.ttl);
      } else {
        lockLosses := lockLosses + [lock.token];
      }
    }

    method ReleaseLock(lock: Lock) returns (released: bool)
      requires lock.token in store.records && store.records[lock.token] == Record(lock.key, lock.ttl)
      modifies this`store
      ensures store == Apply(old(store), Release(lock.token))
      ensures released <==>
              && lock.key in old(store).locks && old(store).now < old(store).locks[lock.key].expires
              && old(store).locks[lock.key].token == lock.token
      ensures released ==> store.now == old(store).now && store.locks == old(store).locks - {lock.key}
      ensures !released ==> store == old(store)
    {
      released := Owner(store, lock.key) == Some(lock.token);
      if released {
        store := store.(locks := store.locks - {lock.key}, grants := Truncated(store.grants, lock.token, store.now));
      }
    }
  }
}
