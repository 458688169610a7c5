/**
 * The request-duration histogram observes every request exactly once: each
 * event records one duration observation per request it finalizes, and no
 * other, and a finalized request stays finalized.
 */
module Observations {
  import opened Wrappers
  import opened Messages
  import opened Services
  import opened RuntimeContext
  import opened Requests
  import opened Lifecycle
  import opened Events
  import opened Outcomes

  /** The number of duration observations in a metric log. */
  function Durations(ms: seq<Metric>): nat {
    if ms == [] then 0
    else Durations(ms[..|ms| - 1]) + (if ms[|ms| - 1].RequestDuration? then 1 else 0)
  }

  /** The requests that have reached Finalizing. */
  ghost function Finalized(requests: map<nat, Request>): set<nat> {
    set id | id in requests && requests[id].phase == Finalizing
  }

  /**
   * Going from `a` to `b` loses no finalized request and records exactly one
   * duration observation for each request newly finalized.
   */
  ghost predicate ObservedOnce(a: Tables, b: Tables) {
    Finalized(a.requests) <= Finalized(b.requests) &&
    Durations(b.metrics) + |Finalized(a.requests)| == Durations(a.metrics) + |Finalized(b.requests)|
  }

  /** A step that finalizes nothing and records nothing. */
  ghost predicate Quiet(a: Tables, b: Tables) {
    Finalized(b.requests) == Finalized(a.requests) && b.metrics == a.metrics
  }

  /** Every finalized request of `t` has exactly one observation in its log. */
  ghost predicate Accounted(t: Tables) {
    Durations(t.metrics) == |Finalized(t.requests)|
  }

  lemma DurationsAppend(ms: seq<Metric>, extra: seq<Metric>)
    requires |extra| <= 1
    ensures Durations(ms + extra) == Durations(ms) + Durations(extra)
  {
    if extra == [] {
      assert ms + extra == ms;
    } else {
      assert (ms + extra)[..|ms + extra| - 1] == ms;
    }
  }

  /** Replacing a record by one that is finalized exactly when it was keeps the finalized set. */
  lemma SameFinalized(r: map<nat, Request>, id: nat, q: Request)
    requires (id in r && r[id].phase == Finalizing) == (q.phase == Finalizing)
    ensures Finalized(r[id := q]) == Finalized(r)
  {
  }

  /** Finalizing a record that was not finalized adds exactly it to the finalized set. */
  lemma AddFinalized(r: map<nat, Request>, id: nat, q: Request)
    requires id in r && r[id].phase != Finalizing && q.phase == Finalizing
    ensures Finalized(r[id := q]) == Finalized(r) + {id} && id !in Finalized(r)
    ensures |Finalized(r[id := q])| == |Finalized(r)| + 1
  {
    assert Finalized(r[id := q]) == Finalized(r) + {id};
  }

  /** The Finalizing step of a stamped request records exactly one observation. */
  lemma FinalizingObservedOnce(t: Tables, id: nat, terminalId: string)
    requires id in t.requests && id in t.sinks
    requires t.requests[id].phase != Finalizing && t.requests[id].stamps.initializedAt.Some?
    ensures ObservedOnce(t, EnterFinalizing(t, id, terminalId))
    ensures Finalized(EnterFinalizing(t, id, terminalId).requests) == Finalized(t.requests) + {id}
  {
    var q := Advance(t.requests[id], Finalizing, t.clock);
    AddFinalized(t.requests, id, q);
    DurationsAppend(t.metrics, Observation(q, t.sinks[id], terminalId));
  }

  lemma ProcessingIsQuiet(t: Tables, id: nat)
    requires Attached(t, id) && t.requests[id].phase != Finalizing
    ensures Quiet(t, EnterProcessing(t, id))
  {
    SameFinalized(t.requests, id, Advance(t.requests[id], Processing, t.clock));
  }

  lemma PendingIsQuiet(t: Tables, id: nat)
    requires Attached(t, id) && t.requests[id].phase != Finalizing
    ensures Quiet(t, EnterPending(t, id))
  {
    var q := t.requests[id];
    if HasSlot(t.runtimes[q.binding.value]) {
      ProcessingIsQuiet(t, id);
    } else {
      SameFinalized(t.requests, id, q.(phase := Pending));
    }
  }

  /** Routed finalizes the request on the 503 path, and nothing otherwise. */
  lemma RoutedObservedOnce(t: Tables, id: nat, terminalId: string)
    requires Attached(t, id) && id in t.sinks
    requires t.requests[id].phase != Finalizing && t.requests[id].stamps.initializedAt.Some?
    ensures ObservedOnce(t, EnterRouted(t, id, terminalId))
    ensures Finalized(EnterRouted(t, id, terminalId).requests) <= Finalized(t.requests) + {id}
  {
    var t1 := Counted(t, id);
    SameFinalized(t.requests, id, Advance(t.requests[id], Routed, t.clock));
    assert Quiet(t, t1);
    if !HasRoom(t1.runtimes[t.requests[id].binding.value]) {
      FinalizingObservedOnce(Respond(t1, id, Response(503, "Service Unavailable")), id, terminalId);
    } else {
      PendingIsQuiet(t1, id);
    }
  }

  /** Initialized finalizes the request on a routing failure or a 503, and nothing otherwise. */
  lemma InitializedObservedOnce(t: Tables, id: nat, terminalId: string)
    requires id in t.requests && id in t.sinks && t.requests[id].message.req.Some? && Live(t)
    requires t.requests[id].phase != Finalizing
    ensures ObservedOnce(t, EnterInitialized(t, id, terminalId))
    ensures Finalized(EnterInitialized(t, id, terminalId).requests) <= Finalized(t.requests) + {id}
  {
    var m := t.requests[id].message;
    var t1 := Stamped(t, id, terminalId);
    SameFinalized(t.requests, id, Advance(t.requests[id], Initialized, t.clock));
    DurationsAppend(t.metrics, [RequestReceived(m.methodName, m.sourceTerminalId, terminalId)]);
    assert ObservedOnce(t, t1);
    var r := RouteOf(t.services, t.methodIndex, t.contextOf, m.methodName, m.req.value);
    if !r.Bound? {
      FinalizingObservedOnce(Respond(t1, id, Rejection(r)), id, terminalId);
    } else {
      BoundRouteIsRegistered(t.services, t.methodIndex, t.contextOf, m.methodName, m.req.value);
      var t2 := Bind(t1, id, r.handle);
      SameFinalized(t1.requests, id, t1.requests[id].(binding := Some(r.handle)));
      RoutedObservedOnce(t2, id, terminalId);
    }
  }

  /** An inbound message finalizes no request but the new one. */
  lemma AcceptFinalizesAtMostNew(t: Tables, msg: Message, now: nat, terminalId: string)
    requires Live(t) && t.nextRequest !in t.requests
    ensures ObservedOnce(t, Accept(t, msg, now, terminalId))
    ensures Finalized(Accept(t, msg, now, terminalId).requests) <= Finalized(t.requests) + {t.nextRequest}
  {
    if IsRequest(msg) {
      var n := t.nextRequest;
      SameFinalized(t.requests, n, Request(msg, Initialized, None, Unstamped));
      InitializedObservedOnce(Received(t, msg, now), n, terminalId);
    }
  }

  /** Whether an inbound message is a request that its verdict refuses. */
  ghost predicate Refused(t: Tables, msg: Message) {
    IsRequest(msg) &&
    var r := RouteOf(t.services, t.methodIndex, t.contextOf, msg.methodName, msg.req.value);
    (r.Bound? ==> r.handle in t.runtimes) && VerdictOf(r, t.runtimes).Rejected?
  }

  /** The new request ends in Finalizing exactly when it is refused. */
  lemma AcceptPhase(t: Tables, msg: Message, now: nat, terminalId: string)
    requires Live(t) && t.nextRequest !in t.requests
    ensures IsRequest(msg) ==> t.nextRequest in Accept(t, msg, now, terminalId).requests
    ensures IsRequest(msg) ==>
              (Accept(t, msg, now, terminalId).requests[t.nextRequest].phase == Finalizing <==> Refused(t, msg))
  {
    AcceptOutcome(t, msg, now, terminalId);
  }

  /** A step that finalizes at most `n`, which was not finalized, finalizes it exactly when it ends finalized. */
  lemma PhaseDecidesFinalized(a: map<nat, Request>, b: map<nat, Request>, n: nat, finalized: bool)
    requires n !in a && Finalized(a) <= Finalized(b) <= Finalized(a) + {n}
    requires finalized <==> n in b && b[n].phase == Finalizing
    ensures Finalized(b) == Finalized(a) + (if finalized then {n} else {})
  {
  }

  /**
   * An inbound message finalizes, and observes, the new request exactly when
   * its verdict is a refusal (400 or 500 from routing, 503 from admission),
   * and no other request.
   */
  lemma AcceptObservedOnce(t: Tables, msg: Message, now: nat, terminalId: string)
    requires Live(t) && t.nextRequest !in t.requests
    ensures ObservedOnce(t, Accept(t, msg, now, terminalId))
    ensures Finalized(Accept(t, msg, now, terminalId).requests)
              == Finalized(t.requests) + (if Refused(t, msg) then {t.nextRequest} else {})
  {
    AcceptFinalizesAtMostNew(t, msg, now, terminalId);
    AcceptPhase(t, msg, now, terminalId);
    PhaseDecidesFinalized(t.requests, Accept(t, msg, now, terminalId).requests, t.nextRequest, Refused(t, msg));
  }

  /** Processed finalizes the finished request and only moves the queue head to Processing. */
  lemma ProcessedObservedOnce(t: Tables, id: nat, terminalId: string)
    requires Releasable(t, id)
    requires t.requests[id].phase != Finalizing && t.requests[id].stamps.initializedAt.Some?
    requires var rt := t.runtimes[t.requests[id].binding.value];
             rt.pending != [] ==> rt.pending[0] != id && t.requests[rt.pending[0]].phase != Finalizing
    ensures ObservedOnce(t, EnterProcessed(t, id, terminalId))
    ensures Finalized(EnterProcessed(t, id, terminalId).requests) == Finalized(t.requests) + {id}
  {
    var h := t.requests[id].binding.value;
    var t0 := Freed(t, id);
    SameFinalized(t.requests, id, Advance(t.requests[id], Processed, t.clock));
    var t1 := EnterFinalizing(t0, id, terminalId);
    FinalizingObservedOnce(t0, id, terminalId);
    var queue := t.runtimes[h].pending;
    if queue != [] {
      ProcessingIsQuiet(Shifted(t1, h), queue[0]);
    }
  }

  lemma CompleteObservedOnce(t: Tables, e: Event, terminalId: string)
    requires Ok(t) && Enabled(t, e) && e.Completed?
    ensures ObservedOnce(t, Apply(t, e, terminalId))
  {
    ProcessingIsReleasable(t, e.id);
    ProcessingWasStamped(t, e.id);
    ProcessedObservedOnce(Clocked(t, e.now), e.id, terminalId);
  }

  lemma FailObservedOnce(t: Tables, e: Event, terminalId: string)
    requires Ok(t) && Enabled(t, e) && e.Failed?
    ensures ObservedOnce(t, Apply(t, e, terminalId))
  {
    ProcessingIsReleasable(t, e.id);
    ProcessingWasStamped(t, e.id);
    SinksOfRequests(t);
    var s := Respond(Clocked(t, e.now), e.id, FailureResponse(e.error));
    assert s.requests == t.requests && s.runtimes == t.runtimes && s.metrics == t.metrics;
    ProcessedObservedOnce(s, e.id, terminalId);
  }

  /**
   * Every event records exactly one duration observation for each request it
   * finalizes and loses no finalized request; so a server whose log holds
   * one observation per finalized request keeps that balance.
   */
  lemma EveryEventObservedOnce(t: Tables, e: Event, terminalId: string)
    requires Ok(t) && Enabled(t, e)
    ensures ObservedOnce(t, Apply(t, e, terminalId))
    ensures Accounted(t) ==> Accounted(Apply(t, e, terminalId))
  {
    if e.Inbound? {
      FreshId(t);
      AcceptObservedOnce(t, e.msg, e.now, terminalId);
    } else if e.Completed? {
      CompleteObservedOnce(t, e, terminalId);
    } else if e.Failed? {
      FailObservedOnce(t, e, terminalId);
    }
  }
}
