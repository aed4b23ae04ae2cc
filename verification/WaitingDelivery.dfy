/**
  The waiting notice and its circuit breaker (coke/turn/runner.py): one request, at most one retry,
  and no retry on a route that has failed too often since it last worked.
*/
module WaitingDelivery {

  /** An account together with the provider route an outcome names. */
  type Route(==, !new)

  /** `Delivered` is status "sent" or "delivered"; `Transient` is a failure worth a retry. */
  datatype Status = Delivered | Transient | Permanent | Other

  datatype Outcome = Outcome(status: Status, route: Route)

  /** What one dispatch meets: the outcomes of its requests, and whether the turn turns out to be
      over before and after the pause that precedes a retry. */
  datatype Dispatch = Dispatch(first: Outcome, second: Outcome, overBefore: bool, overAfter: bool)

  datatype Event = Request(outcome: Outcome) | Retry(route: Route)

  // -------------------------------------------------------------- the breaker's steps

  function FailuresOn(failures: map<Route, nat>, route: Route): nat { if route in failures then failures[route] else 0 }

  function Observe(failures: map<Route, nat>, o: Outcome): map<Route, nat> {
    match o.status
    case Delivered => failures - {o.route}
    case Transient => failures[o.route := FailuresOn(failures, o.route) + 1]
    case _ => failures
  }

  predicate Retries(failures: map<Route, nat>, threshold: nat, d: Dispatch) {
    && d.first.status.Transient?
    && FailuresOn(Observe(failures, d.first), d.first.route) < threshold
    && !d.overBefore && !d.overAfter
  }

  function EventsOf(failures: map<Route, nat>, threshold: nat, d: Dispatch): seq<Event> {
    if Retries(failures, threshold, d) then [Request(d.first), Retry(d.first.route), Request(d.second)]
       else [Request(d.first)]
  }

  function AfterDispatch(failures: map<Route, nat>, threshold: nat, d: Dispatch): map<Route, nat> {
    var one := Observe(failures, d.first);
    if Retries(failures, threshold, d) then Observe(one, d.second) else one
  }

  function Failures(threshold: nat, ds: seq<Dispatch>): map<Route, nat> {
    if ds == [] then map[] else AfterDispatch(Failures(threshold, ds[..|ds| - 1]), threshold, ds[|ds| - 1])
  }

  function Log(threshold: nat, ds: seq<Dispatch>): seq<Event> {
    if ds == [] then []
    else
      var before := ds[..|ds| - 1];
      Log(threshold, before) + EventsOf(Failures(threshold, before), threshold, ds[|ds| - 1])
  }

  // ----------------------------------------------------------------------- history

  predicate Worked(e: Event, route: Route) { e.Request? && e.outcome == Outcome(Delivered, route) }

  /** Retries after a failure on `route` since something was last delivered on it. */
  function RetriesSince(log: seq<Event>, route: Route): nat {
    if log == [] || Worked(log[|log| - 1], route) then 0
    else RetriesSince(log[..|log| - 1], route) + (if log[|log| - 1] == Retry(route) then 1 else 0)
  }

  /** Transient failures on `route` since something was last delivered on it. */
  function FailuresSince(log: seq<Event>, route: Route): nat {
    if log == [] || Worked(log[|log| - 1], route) then 0
    else
      FailuresSince(log[..|log| - 1], route)
      + (if log[|log| - 1] == Request(Outcome(Transient, route)) then 1 else 0)
  }

  /** The breaker counts exactly the transient failures since the last success of each route, and
      retries stay below both the count and the threshold. */
  ghost predicate Tracks(failures: map<Route, nat>, threshold: nat, log: seq<Event>) {
    forall r :: FailuresOn(failures, r) == FailuresSince(log, r) && RetriesSince(log, r) <= FailuresSince(log, r)
           && RetriesSince(log, r) < threshold
  }

  lemma ObserveTracks(failures: map<Route, nat>, threshold: nat, log: seq<Event>, o: Outcome)
    requires Tracks(failures, threshold, log)
    ensures Tracks(Observe(failures, o), threshold, log + [Request(o)])
    ensures o.status.Transient? ==>
            RetriesSince(log + [Request(o)], o.route) < FailuresOn(Observe(failures, o), o.route)
  {
    var log' := log + [Request(o)];
    assert log'[..|log'| - 1] == log;
    forall r
      ensures FailuresSince(log', r)
              == (if o == Outcome(Delivered, r) then 0
                else FailuresSince(log, r) + (if o == Outcome(Transient, r) then 1 else 0))
      ensures RetriesSince(log', r) == (if o == Outcome(Delivered, r) then 0 else RetriesSince(log, r))
    {
    }
    assert FailuresSince(log, o.route) == FailuresOn(failures, o.route);
  }

  lemma RetryTracks(failures: map<Route, nat>, threshold: nat, log: seq<Event>, route: Route)
    requires Tracks(failures, threshold, log)
    requires RetriesSince(log, route) < FailuresOn(failures, route) < threshold
    ensures Tracks(failures, threshold, log + [Retry(route)])
  {
    var log' := log + [Retry(route)];
    assert log'[..|log'| - 1] == log;
    forall r
      ensures FailuresSince(log', r) == FailuresSince(log, r)
      ensures RetriesSince(log', r) == RetriesSince(log, r) + (if r == route then 1 else 0)
    {
    }
  }

  /** Every moment within a dispatch keeps the bound. */
  lemma DispatchTracks(failures: map<Route, nat>, threshold: nat, log: seq<Event>, d: Dispatch)
    requires Tracks(failures, threshold, log)
    ensures var events := EventsOf(failures, threshold, d);
            && Tracks(AfterDispatch(failures, threshold, d), threshold, log + events)
            && forall k, r :: 0 <= k <= |events| ==> RetriesSince(log + events[..k], r) < threshold
  {
    var events := EventsOf(failures, threshold, d);
    var one := log + [Request(d.first)];
    ObserveTracks(failures, threshold, log, d.first);
    assert log + events[..0] == log && log + events[..1] == one;
    if Retries(failures, threshold, d) {
      var two := one + [Retry(d.first.route)];
      RetryTracks(Observe(failures, d.first), threshold, one, d.first.route);
      ObserveTracks(Observe(failures, d.first), threshold, two, d.second);
      assert log + events[..2] == two && log + events[..3] == two + [Request(d.second)] == log + events;
    }
  }

  lemma {:induction false} RunTracks(threshold: nat, ds: seq<Dispatch>)
    requires threshold > 0
    ensures Tracks(Failures(threshold, ds), threshold, Log(threshold, ds))
  {
    if ds != [] {
      RunTracks(threshold, ds[..|ds| - 1]);
      DispatchTracks(Failures(threshold, ds[..|ds| - 1]), threshold, Log(threshold, ds[..|ds| - 1]), ds[|ds| - 1]);
    }
  }

  /** Over any sequence of dispatches and outcomes, and at every moment of it, fewer than
      `threshold` retries have followed failures on a route since it last worked. */
  lemma {:induction false} RetriesBetweenSuccessesBounded(threshold: nat, ds: seq<Dispatch>, k: nat, route: Route)
    requires threshold > 0 && k <= |Log(threshold, ds)|
    ensures RetriesSince(Log(threshold, ds)[..k], route) < threshold
  {
    if ds != [] {
      var before := ds[..|ds| - 1];
      var log := Log(threshold, before);
      if k <= |log| {
        RetriesBetweenSuccessesBounded(threshold, before, k, route);
        assert Log(threshold, ds)[..k] == log[..k];
      } else {
        RunTracks(threshold, before);
        DispatchTracks(Failures(threshold, before), threshold, log, ds[|ds| - 1]);
        assert Log(threshold, ds)[..k]
               == log + EventsOf(Failures(threshold, before), threshold, ds[|ds| - 1])[..k - |log|];
      }
    }
  }

  /** The breaker's count is the number of transient failures since the route last worked. */
  lemma CountIsFailuresSince(threshold: nat, ds: seq<Dispatch>, route: Route)
    requires threshold > 0
    ensures FailuresOn(Failures(threshold, ds), route) == FailuresSince(Log(threshold, ds), route)
  {
    RunTracks(threshold, ds);
  }

  lemma FailuresAppend(log: seq<Event>, o: Outcome)
    ensures FailuresSince(log + [Request(o)], o.route) ==
            match o.status
            case Delivered => 0
            case Transient => FailuresSince(log, o.route) + 1
            case _ => FailuresSince(log, o.route)
  {
    assert (log + [Request(o)])[..|log|] == log;
  }

  /** A dispatch sends one request, and a second one exactly if the first failed for now, the turn is
      not over, and the route has failed fewer than `threshold` times since it last worked. */
  lemma SecondRequestIff(threshold: nat, ds: seq<Dispatch>, d: Dispatch)
    requires threshold > 0
    ensures var log := Log(threshold, ds) + [Request(d.first)];
            Log(threshold, ds + [d]) ==
            if d.first.status == Transient && !d.overBefore && !d.overAfter
               && FailuresSince(log, d.first.route) < threshold
            then log + [Retry(d.first.route), Request(d.second)] else log
  {
    RunTracks(threshold, ds);
    RunAppend(threshold, ds, d);
    FailuresAppend(Log(threshold, ds), d.first);
    assert FailuresOn(Failures(threshold, ds), d.first.route) == FailuresSince(Log(threshold, ds), d.first.route);
  }

  /** A dispatch whose first request fails for now and whose retry fails for good. */
  function FailingDispatch(route: Route): Dispatch {
    Dispatch(Outcome(Transient, route), Outcome(Permanent, route), false, false)
  }

  lemma SinceAppend(log: seq<Event>, e: Event, route: Route)
    ensures RetriesSince(log + [e], route) == if Worked(e, route) then 0
            else RetriesSince(log, route) + (if e == Retry(route) then 1 else 0)
  {
    assert (log + [e])[..|log|] == log;
  }

  lemma RunAppend(threshold: nat, ds: seq<Dispatch>, d: Dispatch)
    ensures Log(threshold, ds + [d]) == Log(threshold, ds) + EventsOf(Failures(threshold, ds), threshold, d)
    ensures Failures(threshold, ds + [d]) == AfterDispatch(Failures(threshold, ds), threshold, d)
  {
    assert (ds + [d])[..|ds|] == ds;
  }

  lemma FailingDispatchRetries(failures: map<Route, nat>, threshold: nat, log: seq<Event>, route: Route)
    requires FailuresOn(failures, route) + 1 < threshold
    ensures var d := FailingDispatch(route);
            && FailuresOn(AfterDispatch(failures, threshold, d), route) == FailuresOn(failures, route) + 1
            && RetriesSince(log + EventsOf(failures, threshold, d), route) == RetriesSince(log, route) + 1
  {
    var d := FailingDispatch(route);
    SinceAppend(log, Request(d.first), route);
    SinceAppend(log + [Request(d.first)], Retry(route), route);
    SinceAppend(log + [Request(d.first)] + [Retry(route)], Request(d.second), route);
    assert log + [Request(d.first), Retry(route), Request(d.second)]
           == log + [Request(d.first)] + [Retry(route)] + [Request(d.second)];
  }

  lemma OneMoreRetry(threshold: nat, ds: seq<Dispatch>, route: Route, n: nat)
    requires FailuresOn(Failures(threshold, ds), route) == RetriesSince(Log(threshold, ds), route) == n
             && n + 1 < threshold
    ensures FailuresOn(Failures(threshold, ds + [FailingDispatch(route)]), route) == n + 1
    ensures RetriesSince(Log(threshold, ds + [FailingDispatch(route)]), route) == n + 1
  {
    RunAppend(threshold, ds, FailingDispatch(route));
    FailingDispatchRetries(Failures(threshold, ds), threshold, Log(threshold, ds), route);
  }

  /** The bound is reached: the breaker opens no earlier than it says. */
  lemma BoundIsReached(threshold: nat, route: Route, n: nat) returns (ds: seq<Dispatch>)
    requires n < threshold
    ensures RetriesSince(Log(threshold, ds), route) == n
    ensures FailuresOn(Failures(threshold, ds), route) == n
  {
    ds := [];
    for i := 0 to n
      invariant FailuresOn(Failures(threshold, ds), route) == RetriesSince(Log(threshold, ds), route) == i
    {
      OneMoreRetry(threshold, ds, route, i);
      ds := ds + [FailingDispatch(route)];
    }
  }

  // --------------------------------------------------------------------- the objects

  class WaitingDeliveryCircuitBreaker {
    const failureThreshold: nat
    var failuresByRoute: map<Route, nat>

    constructor (failureThreshold: int)
      ensures this.failureThreshold == if failureThreshold < 1 then 1 else failureThreshold
      ensures failuresByRoute == map[]
    {
      this.failureThreshold := if failureThreshold < 1 then 1 else failureThreshold;
      failuresByRoute := map[];
    }

    predicate Allow(route: Route)
      reads this
    {
      FailuresOn(failuresByRoute, route) < failureThreshold
    }

    method ObserveOutcome(o: Outcome)
      modifies this
      ensures failuresByRoute == Observe(old(failuresByRoute), o)
      ensures failuresByRoute ==
              match o.status
              case Delivered => old(failuresByRoute) - {o.route}
              case Transient =>
                var counted := if o.route in old(failuresByRoute) then old(failuresByRoute)[o.route] else 0;
                old(failuresByRoute)[o.route := counted + 1]
              case _ => old(failuresByRoute)
    {
      if o.status.Delivered? {
        failuresByRoute := failuresByRoute - {o.route};
        return;
      }
      if !o.status.Transient? {
        return;
      }
      failuresByRoute := failuresByRoute[o.route := FailuresOn(failuresByRoute, o.route) + 1];
    }
  }

  /** Whether a dispatch sends its second request: with no breaker nothing stands in a transient
      failure's way but the turn being over. */
  ghost predicate SecondIsSent(breaker: WaitingDeliveryCircuitBreaker?, d: Dispatch)
    reads breaker
  {
    if breaker != null then Retries(breaker.failuresByRoute, breaker.failureThreshold, d)
    else d.first.status.Transient? && !d.overBefore && !d.overAfter
  }

  /** `send_waiting_delivery`: at most two requests leave. */
  method SendWaitingDelivery(breaker: WaitingDeliveryCircuitBreaker?, d: Dispatch) returns (outcomes: seq<Outcome>)
    modifies if breaker == null then {} else {breaker}
    ensures outcomes == if old(SecondIsSent(breaker, d)) then [d.first, d.second] else [d.first]
    ensures outcomes == [d.first] || outcomes == [d.first, d.second]
    ensures |outcomes| == 2 <==>
            && d.first.status == Transient && !d.overBefore && !d.overAfter
            && (breaker != null ==>
                  var failures := old(breaker.failuresByRoute);
                  (if d.first.route in failures then failures[d.first.route] else 0) + 1 < breaker.failureThreshold)
    ensures breaker != null ==>
              breaker.failuresByRoute == AfterDispatch(old(breaker.failuresByRoute), breaker.failureThreshold, d)
  {
    outcomes := [];
    for attempt := 1 to 3
      invariant attempt == 1 ==>
                  && outcomes == []
                  && (breaker != null ==> breaker.failuresByRoute == old(breaker.failuresByRoute))
      invariant attempt == 2 ==>
                  && outcomes == [d.first] && (d.first.status.Transient? || d.first.status.Permanent?)
                  && (breaker != null ==> breaker.failuresByRoute == Observe(old(breaker.failuresByRoute), d.first))
      invariant attempt == 3 ==>
                  && old(SecondIsSent(breaker, d)) && outcomes == [d.first, d.second]
                  && (breaker != null ==>
                        breaker.failuresByRoute == AfterDispatch(old(breaker.failuresByRoute),
                          breaker.failureThreshold, d))
    {
      if attempt == 2 {
        var previous := outcomes[|outcomes| - 1];
        if !previous.status.Transient? {
          break;
        }
        if breaker != null && !breaker.Allow(previous.route) {
          break;
        }
        if d.overBefore {
          break;
        }
        if d.overAfter {
          break;
        }
      }
      var outcome := if attempt == 1 then d.first else d.second;
      outcomes := outcomes + [outcome];
      if breaker != null {
        breaker.ObserveOutcome(outcome);
      }
      if !outcome.status.Transient? && !outcome.status.Permanent? {
        break;
      }
    }
  }
}
