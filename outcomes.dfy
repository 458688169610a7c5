/**
 * What each event decides, stated on the tables: the verdict of the
 * synchronous part of a request's lifecycle, the Processed step with its FIFO
 * hand-over, the response codes the duration histogram is tagged with, the
 * heartbeat's reach, and the registry calls.
 */
module Outcomes {
  import opened Wrappers
  import opened Messages
  import opened Services
  import opened RuntimeContext
  import opened Requests
  import opened Links
  import opened Lifecycle
  import opened Events

  /** A request that is answered at once: one response, closed, observed with duration 0. */
  function Answered(f: Fragment): Sink
    requires f.Response?
  {
    Sink([f], true, Some(f.code))
  }

  /** The metrics a request refused by its verdict leaves behind. */
  function RefusalMetrics(msg: Message, terminalId: string, f: Fragment): seq<Metric>
    requires f.Response?
  {
    [RequestReceived(msg.methodName, msg.sourceTerminalId, terminalId),
     RequestDuration(msg.methodName, msg.sourceTerminalId, terminalId, f.code, 0)]
  }

  /** One response into a fresh sink, then completion. */
  lemma AnsweredAtOnce(f: Fragment)
    requires f.Response?
    ensures Close(Push(OpenSink, f)) == Answered(f) && FinalCode(Push(OpenSink, f)) == f.code
  {
    assert OpenSink.fragments + [f] == [f];
  }

  lemma FreshId(t: Tables)
    requires Ok(t)
    ensures t.nextRequest !in t.requests && t.nextRequest !in t.sinks && Live(t)
  {
    SinksOfRequests(t);
  }

  /** Routing fails: the request is answered with the routing error and finalized at once. */
  lemma RouteRefused(t: Tables, msg: Message, now: nat, terminalId: string)
    requires Live(t) && t.nextRequest !in t.requests && IsRequest(msg)
    requires !RouteOf(t.services, t.methodIndex, t.contextOf, msg.methodName, msg.req.value).Bound?
    ensures var n := t.nextRequest;
            var f := Rejection(RouteOf(t.services, t.methodIndex, t.contextOf, msg.methodName, msg.req.value));
            var t' := Accept(t, msg, now, terminalId);
            && t'.requests == t.requests[n := t'.requests[n]]
            && t'.requests[n].message == msg && t'.requests[n].phase == Finalizing && t'.requests[n].binding.None?
            && t'.runtimes == t.runtimes
            && t'.sinks == t.sinks[n := Answered(f)]
            && t'.metrics == t.metrics + RefusalMetrics(msg, terminalId, f)
  {
    var n := t.nextRequest;
    var f := Rejection(RouteOf(t.services, t.methodIndex, t.contextOf, msg.methodName, msg.req.value));
    var q0 := Request(msg, Initialized, None, Unstamped);
    var q1 := Advance(q0, Initialized, now);
    Overwrite(t.requests, n, q0, q1);
    Overwrite(t.requests, n, q1, Advance(q1, Finalizing, now));
    Overwrite(t.sinks, n, OpenSink, Push(OpenSink, f));
    Overwrite(t.sinks, n, Push(OpenSink, f), Close(Push(OpenSink, f)));
    AnsweredAtOnce(f);
  }

  /** The chosen context's queue is full: the request is counted, answered with 503 and finalized. */
  lemma CapacityRefused(t: Tables, msg: Message, now: nat, terminalId: string)
    requires Live(t) && t.nextRequest !in t.requests && IsRequest(msg)
    requires var r := RouteOf(t.services, t.methodIndex, t.contextOf, msg.methodName, msg.req.value);
             r.Bound? && r.handle in t.runtimes && !HasRoom(t.runtimes[r.handle])
    ensures var n := t.nextRequest;
            var r := RouteOf(t.services, t.methodIndex, t.contextOf, msg.methodName, msg.req.value);
            var f := Response(503, "Service Unavailable");
            var t' := Accept(t, msg, now, terminalId);
            && t'.requests == t.requests[n := t'.requests[n]]
            && t'.requests[n].message == msg && t'.requests[n].phase == Finalizing
            && t'.requests[n].binding == Some(r.handle)
            && t'.runtimes == t.runtimes[r.handle := Admit(t.runtimes[r.handle], n)]
            && t'.sinks == t.sinks[n := Answered(f)]
            && t'.metrics == t.metrics + RefusalMetrics(msg, terminalId, f)
  {
    var n := t.nextRequest;
    var f := Response(503, "Service Unavailable");
    BoundRouteIsRegistered(t.services, t.methodIndex, t.contextOf, msg.methodName, msg.req.value);
    var h := RouteOf(t.services, t.methodIndex, t.contextOf, msg.methodName, msg.req.value).handle;
    var q0 := Request(msg, Initialized, None, Unstamped);
    var q1 := Advance(q0, Initialized, now);
    var q2 := q1.(binding := Some(h));
    var q3 := Advance(q2, Routed, now);
    Overwrite(t.requests, n, q0, q1);
    Overwrite(t.requests, n, q1, q2);
    Overwrite(t.requests, n, q2, q3);
    Overwrite(t.requests, n, q3, Advance(q3, Finalizing, now));
    Overwrite(t.sinks, n, OpenSink, Push(OpenSink, f));
    Overwrite(t.sinks, n, Push(OpenSink, f), Close(Push(OpenSink, f)));
    AnsweredAtOnce(f);
  }

  /** The request is admitted: it starts at once when a slot is free and is queued otherwise. */
  lemma Admitted(t: Tables, msg: Message, now: nat, terminalId: string)
    requires Live(t) && t.nextRequest !in t.requests && IsRequest(msg)
    requires var r := RouteOf(t.services, t.methodIndex, t.contextOf, msg.methodName, msg.req.value);
             r.Bound? && r.handle in t.runtimes && HasRoom(t.runtimes[r.handle])
    ensures var n := t.nextRequest;
            var r := RouteOf(t.services, t.methodIndex, t.contextOf, msg.methodName, msg.req.value);
            var t' := Accept(t, msg, now, terminalId);
            && t'.requests == t.requests[n := t'.requests[n]]
            && t'.requests[n].message == msg
            && t'.requests[n].phase == (if HasSlot(t.runtimes[r.handle]) then Processing else Pending)
            && t'.requests[n].binding == Some(r.handle)
            && t'.runtimes == t.runtimes[r.handle := Admit(t.runtimes[r.handle], n)]
            && t'.sinks == t.sinks[n := OpenSink]
            && t'.metrics == t.metrics + [RequestReceived(msg.methodName, msg.sourceTerminalId, terminalId)]
  {
    var n := t.nextRequest;
    BoundRouteIsRegistered(t.services, t.methodIndex, t.contextOf, msg.methodName, msg.req.value);
    var h := RouteOf(t.services, t.methodIndex, t.contextOf, msg.methodName, msg.req.value).handle;
    var rt := CountRouted(t.runtimes[h]);
    var q0 := Request(msg, Initialized, None, Unstamped);
    var q1 := Advance(q0, Initialized, now);
    var q2 := q1.(binding := Some(h));
    var q3 := Advance(q2, Routed, now);
    Overwrite(t.requests, n, q0, q1);
    Overwrite(t.requests, n, q1, q2);
    Overwrite(t.requests, n, q2, q3);
    if HasSlot(rt) {
      Overwrite(t.requests, n, q3, Advance(q3, Processing, now));
      Overwrite(t.runtimes, h, rt, Occupy(rt, n));
    } else {
      Overwrite(t.requests, n, q3, q3.(phase := Pending));
      Overwrite(t.runtimes, h, rt, Enqueue(rt, n));
    }
  }

  /**
   * An inbound request gets the next id and runs until it is refused (400 or
   * 500 from routing, 503 from admission), started or queued; nothing else
   * is ignored but the clock. The verdict is the one `VerdictOf` computes
   * from the route and the chosen context as they were on arrival.
   */
  lemma AcceptOutcome(t: Tables, msg: Message, now: nat, terminalId: string)
    requires Live(t) && t.nextRequest !in t.requests
    ensures !IsRequest(msg) ==> Accept(t, msg, now, terminalId) == t.(clock := now)
    ensures IsRequest(msg) ==>
              var r := RouteOf(t.services, t.methodIndex, t.contextOf, msg.methodName, msg.req.value);
              r.Bound? ==> r.handle in t.runtimes
    ensures IsRequest(msg) ==> t.nextRequest in Accept(t, msg, now, terminalId).requests
    ensures IsRequest(msg) ==>
              var n := t.nextRequest;
              var r := RouteOf(t.services, t.methodIndex, t.contextOf, msg.methodName, msg.req.value);
              var v := VerdictOf(r, t.runtimes);
              var t' := Accept(t, msg, now, terminalId);
              && t'.requests == t.requests[n := t'.requests[n]]
              && t'.requests[n].message == msg
              && t'.requests[n].phase == PhaseAfter(v)
              && t'.requests[n].binding == (if r.Bound? then Some(r.handle) else None)
              && t'.runtimes == (if r.Bound? then t.runtimes[r.handle := Admit(t.runtimes[r.handle], n)] else t.runtimes)
              && t'.sinks == t.sinks[n := if v.Rejected? then Answered(v.response) else OpenSink]
              && t'.metrics == t.metrics + (if v.Rejected? then RefusalMetrics(msg, terminalId, v.response)
                                            else [RequestReceived(msg.methodName, msg.sourceTerminalId, terminalId)])
  {
    if IsRequest(msg) {
      var r := RouteOf(t.services, t.methodIndex, t.contextOf, msg.methodName, msg.req.value);
      if !r.Bound? {
        RouteRefused(t, msg, now, terminalId);
      } else {
        BoundRouteIsRegistered(t.services, t.methodIndex, t.contextOf, msg.methodName, msg.req.value);
        if !HasRoom(t.runtimes[r.handle]) {
          CapacityRefused(t, msg, now, terminalId);
        } else {
          Admitted(t, msg, now, terminalId);
        }
      }
    }
  }

  /**
   * The Processed step, on any tables where it can run: the slot is released
   * (the head of the queue, if any, takes it and is stamped Processing), the
   * request is stamped Processed and Finalizing, its sink is closed, and one
   * duration observation is recorded with the last response code or 520.
   */
  lemma ProcessedEffect(s: Tables, id: nat, terminalId: string)
    requires Releasable(s, id) && s.requests[id].stamps.initializedAt.Some?
    requires var rt := s.runtimes[s.requests[id].binding.value];
             rt.pending != [] ==> rt.pending[0] != id
    ensures var q := s.requests[id];
            var h := q.binding.value;
            var rt := s.runtimes[h];
            var t' := EnterProcessed(s, id, terminalId);
            && t'.runtimes == s.runtimes[h := Release(rt, id)]
            && id in t'.requests && t'.requests[id].phase == Finalizing
            && t'.requests[id].stamps.processedAt == Some(s.clock) && t'.requests[id].stamps.finalizedAt == Some(s.clock)
            && (rt.pending == [] ==> t'.requests == s.requests[id := t'.requests[id]])
            && (rt.pending != [] ==>
                  t'.requests == s.requests[id := t'.requests[id]]
                                           [rt.pending[0] := Advance(s.requests[rt.pending[0]], Processing, s.clock)])
            && t'.sinks == s.sinks[id := Close(s.sinks[id])]
            && t'.metrics == s.metrics + [RequestDuration(q.message.methodName, q.message.sourceTerminalId, terminalId,
                                                          FinalCode(s.sinks[id]), s.clock - q.stamps.initializedAt.value)]
  {
    var h := s.requests[id].binding.value;
    var t' := EnterProcessed(s, id, terminalId);
    assert t'.runtimes[h] == Release(s.runtimes[h], id);
  }

  /** A processing request's timestamps: stamped on arrival, not later than the clock. */
  lemma ProcessingWasStamped(t: Tables, id: nat)
    requires Ok(t) && id in t.requests && t.requests[id].phase == Processing
    ensures t.requests[id].stamps.initializedAt.Some? && t.requests[id].stamps.initializedAt.value <= t.clock
  {
  }

  /**
   * The handler completed: Processed as above at time `now`; combined with
   * `ReleaseIsFifo`, the earliest queued request of the same context, and no
   * other, starts.
   */
  lemma CompleteOutcome(t: Tables, id: nat, now: nat, terminalId: string)
    requires Ok(t) && t.clock <= now && id in t.requests && t.requests[id].phase == Processing
    ensures Releasable(t, id)
    ensures t.requests[id].stamps.initializedAt.Some? && t.requests[id].stamps.initializedAt.value <= now
    ensures var q := t.requests[id];
            var h := q.binding.value;
            var rt := t.runtimes[h];
            var t' := Complete(t, id, now, terminalId);
            && t'.runtimes == t.runtimes[h := Release(rt, id)]
            && id in t'.requests && t'.requests[id].phase == Finalizing
            && (rt.pending == [] ==> t'.requests == t.requests[id := t'.requests[id]])
            && (rt.pending != [] ==>
                  t'.requests == t.requests[id := t'.requests[id]]
                                           [rt.pending[0] := Advance(t.requests[rt.pending[0]], Processing, now)])
            && t'.sinks == t.sinks[id := Close(t.sinks[id])]
            && t'.metrics == t.metrics + [RequestDuration(q.message.methodName, q.message.sourceTerminalId, terminalId,
                                                          FinalCode(t.sinks[id]), now - q.stamps.initializedAt.value)]
  {
    ProcessingIsReleasable(t, id);
    ProcessingWasStamped(t, id);
    ProcessedEffect(Clocked(t, now), id, terminalId);
  }

  /**
   * The handler threw or timed out: the caller sees one 500 response as the
   * last fragment, the sink is closed, and the duration observation carries
   * code 500.
   */
  lemma FailOutcome(t: Tables, id: nat, error: string, now: nat, terminalId: string)
    requires Ok(t) && t.clock <= now && id in t.requests && t.requests[id].phase == Processing
    ensures Releasable(t, id)
    ensures t.requests[id].stamps.initializedAt.Some? && t.requests[id].stamps.initializedAt.value <= now
    ensures var q := t.requests[id];
            var t' := Fail(t, id, error, now, terminalId);
            && id in t'.sinks && t'.sinks[id].closed
            && t'.sinks[id].fragments == t.sinks[id].fragments + [FailureResponse(error)]
            && LastResponseCode(t'.sinks[id].fragments) == Some(500) && FinalCode(t'.sinks[id]) == 500
            && t'.metrics == t.metrics + [RequestDuration(q.message.methodName, q.message.sourceTerminalId, terminalId,
                                                          500, now - q.stamps.initializedAt.value)]
  {
    ProcessingIsReleasable(t, id);
    ProcessingWasStamped(t, id);
    SinksOfRequests(t);
    var rt := t.runtimes[t.requests[id].binding.value];
    assert rt.pending != [] ==> rt.pending[0] != id;
    FailEffect(t, id, error, now, terminalId);
  }

  /** What `FailOutcome` states, from the facts of the invariant it needs. */
  lemma FailEffect(t: Tables, id: nat, error: string, now: nat, terminalId: string)
    requires Releasable(t, id) && t.requests[id].stamps.initializedAt.Some?
    requires var rt := t.runtimes[t.requests[id].binding.value];
             rt.pending != [] ==> rt.pending[0] != id
    requires !t.sinks[id].closed && Tracks(t.sinks[id])
    ensures var q := t.requests[id];
            var t' := Fail(t, id, error, now, terminalId);
            && id in t'.sinks && t'.sinks[id].closed
            && t'.sinks[id].fragments == t.sinks[id].fragments + [FailureResponse(error)]
            && LastResponseCode(t'.sinks[id].fragments) == Some(500) && FinalCode(t'.sinks[id]) == 500
            && t'.metrics == t.metrics + [RequestDuration(q.message.methodName, q.message.sourceTerminalId, terminalId,
                                                          500, now - q.stamps.initializedAt.value)]
  {
    var f := FailureResponse(error);
    PushKeepsTracking(t.sinks[id], f);
    var s := Respond(Clocked(t, now), id, f);
    ProcessedEffect(s, id, terminalId);
  }

  /** A handler that completes without ever sending a response is observed with code 520. */
  lemma SilentCompletionIs520(t: Tables, id: nat, now: nat, terminalId: string)
    requires Ok(t) && t.clock <= now && id in t.requests && t.requests[id].phase == Processing
    requires id in t.sinks && forall i :: 0 <= i < |t.sinks[id].fragments| ==> !t.sinks[id].fragments[i].Response?
    ensures Releasable(t, id)
    ensures t.requests[id].stamps.initializedAt.Some?
    ensures var q := t.requests[id];
            Complete(t, id, now, terminalId).metrics ==
              t.metrics + [RequestDuration(q.message.methodName, q.message.sourceTerminalId, terminalId,
                                           520, now - q.stamps.initializedAt.value)]
  {
    CompleteOutcome(t, id, now, terminalId);
    NoResponseFound(t.sinks[id].fragments);
  }

  // Where requests rest between events.

  /**
   * Between events no request is left halfway: each one is Pending (and so
   * in its context's queue), Processing (and so waiting only for its handler)
   * or Finalizing.
   */
  ghost predicate Settled(t: Tables) {
    forall id :: id in t.requests ==> t.requests[id].phase in {Pending, Processing, Finalizing}
  }

  /** A new request ends its synchronous part settled, as its verdict says. */
  lemma AcceptSettles(t: Tables, msg: Message, now: nat, terminalId: string)
    requires Live(t) && t.nextRequest !in t.requests && Settled(t)
    ensures Settled(Accept(t, msg, now, terminalId))
  {
    AcceptOutcome(t, msg, now, terminalId);
  }

  /** The Processed step finalizes one request and starts the head of its queue: all stay settled. */
  lemma ProcessedSettles(s: Tables, id: nat, terminalId: string)
    requires Releasable(s, id) && s.requests[id].stamps.initializedAt.Some?
    requires var rt := s.runtimes[s.requests[id].binding.value];
             rt.pending != [] ==> rt.pending[0] != id
    requires Settled(s)
    ensures Settled(EnterProcessed(s, id, terminalId))
  {
    ProcessedEffect(s, id, terminalId);
  }

  /** An inbound message leaves every request settled. */
  lemma InboundSettles(t: Tables, e: Event, terminalId: string)
    requires Ok(t) && Enabled(t, e) && Settled(t) && e.Inbound?
    ensures Settled(Apply(t, e, terminalId))
  {
    FreshId(t);
    AcceptSettles(t, e.msg, e.now, terminalId);
  }

  /** A handler's completion leaves every request settled. */
  lemma CompletionSettles(t: Tables, e: Event, terminalId: string)
    requires Ok(t) && Enabled(t, e) && Settled(t) && e.Completed?
    ensures Settled(Apply(t, e, terminalId))
  {
    ProcessingIsReleasable(t, e.id);
    ProcessingWasStamped(t, e.id);
    ProcessedSettles(Clocked(t, e.now), e.id, terminalId);
  }

  /** A handler's failure leaves every request settled. */
  lemma FailureSettles(t: Tables, e: Event, terminalId: string)
    requires Ok(t) && Enabled(t, e) && Settled(t) && e.Failed?
    ensures Settled(Apply(t, e, terminalId))
  {
    ProcessingIsReleasable(t, e.id);
    ProcessingWasStamped(t, e.id);
    SinksOfRequests(t);
    var s := Respond(Clocked(t, e.now), e.id, FailureResponse(e.error));
    assert s.requests == t.requests && s.runtimes == t.runtimes;
    ProcessedSettles(s, e.id, terminalId);
  }

  /**
   * Every event keeps every request settled, so from the empty server on a
   * request is only ever waiting for a slot, for its handler, or done.
   */
  lemma EveryEventSettles(t: Tables, e: Event, terminalId: string)
    requires Ok(t) && Enabled(t, e) && Settled(t)
    ensures Settled(Apply(t, e, terminalId))
  {
    if e.Inbound? {
      InboundSettles(t, e, terminalId);
    } else if e.Completed? {
      CompletionSettles(t, e, terminalId);
    } else if e.Failed? {
      FailureSettles(t, e, terminalId);
    }
  }

  // The heartbeat.

  /** Every request queued on a context listed in the registry gets exactly one heartbeat per tick. */
  lemma QueuedHearsBeat(t: Tables, k: string, i: nat)
    requires Ok(t) && k in t.contextOf
    requires t.contextOf[k] in t.runtimes && i < |t.runtimes[t.contextOf[k]].pending|
    ensures t.sinks.Keys <= t.requests.Keys
    ensures var id := t.runtimes[t.contextOf[k]].pending[i];
            && id in t.sinks && t.requests[id].phase == Pending && !t.sinks[id].closed
            && Sweep(t).sinks[id].fragments == t.sinks[id].fragments + [Heartbeat]
            && !Sweep(t).sinks[id].closed
  {
    SinksOfRequests(t);
    var h := t.contextOf[k];
    var id := t.runtimes[h].pending[i];
    assert t.requests[id].binding == Some(h);
    assert Beats(t.requests[id], t.contextOf.Values);
  }

  /**
   * A tick changes a request's sink exactly when the request is Pending in
   * the queue of a context listed in the registry.
   */
  lemma OnlyQueuedHearBeats(t: Tables, id: nat)
    requires Ok(t) && id in t.sinks
    ensures t.sinks.Keys <= t.requests.Keys
    ensures Sweep(t).sinks[id] != t.sinks[id] <==>
              t.requests[id].phase == Pending &&
              exists k :: k in t.contextOf && t.contextOf[k] in t.runtimes && id in t.runtimes[t.contextOf[k]].pending
  {
    SinksOfRequests(t);
    var q := t.requests[id];
    if Beats(q, t.contextOf.Values) {
      var h := q.binding.value;
      var k :| k in t.contextOf && t.contextOf[k] == h;
      assert id in t.runtimes[t.contextOf[k]].pending;
      assert |Sweep(t).sinks[id].fragments| == |t.sinks[id].fragments| + 1;
    }
    if q.phase == Pending && exists k :: k in t.contextOf && t.contextOf[k] in t.runtimes && id in t.runtimes[t.contextOf[k]].pending {
      var k :| k in t.contextOf && t.contextOf[k] in t.runtimes && id in t.runtimes[t.contextOf[k]].pending;
      var h := t.contextOf[k];
      var i :| 0 <= i < |t.runtimes[h].pending| && t.runtimes[h].pending[i] == id;
      assert q.binding == Some(h) && h in t.contextOf.Values;
      assert Beats(q, t.contextOf.Values);
    }
  }

  /**
   * A context that is no longer listed (its key was registered again) still
   * holds its queue, and its queued requests hear no heartbeat.
   */
  lemma UnlistedQueueHearsNothing(t: Tables, h: nat, i: nat)
    requires Ok(t) && h in t.runtimes && h !in t.contextOf.Values && i < |t.runtimes[h].pending|
    ensures t.sinks.Keys <= t.requests.Keys
    ensures var id := t.runtimes[h].pending[i];
            id in t.sinks && t.requests[id].phase == Pending && Sweep(t).sinks[id] == t.sinks[id]
  {
    SinksOfRequests(t);
    var id := t.runtimes[h].pending[i];
    assert t.requests[id].binding == Some(h);
  }

  // The registry.

  /**
   * What `addService` does to the registry: the descriptor is stored under
   * its key, the key joins its method's candidates, and the key is listed
   * with a context; every other descriptor, candidate set and listed key keeps
   * its entry, and the key sets grow by exactly the new names.
   */
  ghost predicate RegistryFrame(t: Tables, t': Tables, s: Service) {
    var key := ServiceKey(s);
    && t'.services.Keys == t.services.Keys + {key} && t'.services[key] == s
    && (forall k :: k in t.services && k != key ==> t'.services[k] == t.services[k])
    && t'.methodIndex.Keys == t.methodIndex.Keys + {s.methodName}
    && t'.methodIndex[s.methodName]
         == (if s.methodName in t.methodIndex then t.methodIndex[s.methodName] else {}) + {key}
    && (forall m :: m in t.methodIndex && m != s.methodName ==> t'.methodIndex[m] == t.methodIndex[m])
    && t'.contextOf.Keys == t.contextOf.Keys + {key}
    && (forall k :: k in t.contextOf && k != key ==> t'.contextOf[k] == t.contextOf[k])
    && t'.runtimes.Keys == t.runtimes.Keys + {t.nextHandle}
  }

  lemma RegisterFrame(t: Tables, s: Service)
    ensures RegistryFrame(t, Register(t, s), s)
  {
  }

  /** Registering keeps every listed descriptor paired with a context. */
  lemma RegisterKeepsConsistent(t: Tables, s: Service)
    requires Consistent(t.services, t.contextOf)
    ensures Consistent(Register(t, s).services, Register(t, s).contextOf)
  {
  }

  /**
   * `addService`: the descriptor is stored under its key and indexed under its
   * method, and the key gets a fresh, empty context; every other descriptor,
   * candidate set and listed key (`RegistryFrame`), every existing context,
   * and the requests bound to them, are untouched. A context the key had
   * before is no longer listed.
   */
  lemma RegisterOutcome(t: Tables, s: Service)
    requires Ok(t)
    ensures t.nextHandle !in t.runtimes
    ensures RegistryFrame(t, Register(t, s), s)
    ensures var key := ServiceKey(s);
            var t' := Register(t, s);
            && t'.contextOf[key] == t.nextHandle && t'.runtimes[t.nextHandle] == FreshRuntime(s)
            && (forall h :: h in t.runtimes ==> t'.runtimes[h] == t.runtimes[h])
            && (key in t.contextOf ==> t.contextOf[key] in t'.runtimes && t.contextOf[key] !in t'.contextOf.Values)
            && t'.requests == t.requests && t'.sinks == t.sinks
            && t'.nextRequest == t.nextRequest && t'.clock == t.clock && t'.metrics == t.metrics
            && (Consistent(t.services, t.contextOf) ==> Consistent(t'.services, t'.contextOf))
  {
    RegisterFrame(t, s);
    if Consistent(t.services, t.contextOf) {
      RegisterKeepsConsistent(t, s);
    }
    var key := ServiceKey(s);
    var t' := Register(t, s);
    if key in t.contextOf {
      var old_h := t.contextOf[key];
      forall k | k in t'.contextOf && k != key
        ensures t'.contextOf[k] == t.contextOf[k] != old_h
      {
      }
    }
  }


  /**
   * A service registered for a payload that no other candidate of its method
   * accepts is where that payload is routed, on its new context.
   */
  lemma RegisteredServiceRoutes(t: Tables, s: Service, p: Payload)
    requires Consistent(t.services, t.contextOf) && s.validator(p)
    requires s.methodName in t.methodIndex ==>
               forall k :: k in t.methodIndex[s.methodName] && k in t.services && k != ServiceKey(s) ==>
                 !t.services[k].validator(p)
    ensures var t' := Register(t, s);
            RouteOf(t'.services, t'.methodIndex, t'.contextOf, s.methodName, p) == Bound(ServiceKey(s), t.nextHandle)
  {
    var key := ServiceKey(s);
    var t' := Register(t, s);
    assert Accepting(t'.services, t'.methodIndex[s.methodName], p) == {key};
    ConsistentRouting(t'.services, t'.methodIndex, t'.contextOf, s.methodName, p);
  }

  /**
   * `removeService`: an unknown id changes nothing; a known one loses its
   * descriptor and its index entry, while its context (and whatever is queued
   * or processing there) stays.
   */
  lemma UnregisterOutcome(t: Tables, k: string)
    ensures k !in t.services ==> Unregister(t, k) == t
    ensures var t' := Unregister(t, k);
            && k !in t'.services
            && t'.services == t.services - {k}
            && (k in t.services && t.services[k].methodName in t.methodIndex ==>
                  t'.methodIndex == t.methodIndex[t.services[k].methodName := t.methodIndex[t.services[k].methodName] - {k}])
            && (k in t.services && t.services[k].methodName !in t.methodIndex ==> t'.methodIndex == t.methodIndex)
            && t'.contextOf == t.contextOf && t'.runtimes == t.runtimes && t'.nextHandle == t.nextHandle
            && t'.requests == t.requests && t'.sinks == t.sinks && t'.nextRequest == t.nextRequest
            && t'.clock == t.clock && t'.metrics == t.metrics
            && (Consistent(t.services, t.contextOf) ==> Consistent(t'.services, t'.contextOf))
  {
  }

  /** After `removeService(k)` no payload of any method is routed to `k`. */
  lemma {:induction false} RemovedServiceNotRouted(t: Tables, k: string, name: string, p: Payload)
    requires Consistent(t.services, t.contextOf)
    ensures var t' := Unregister(t, k);
            var r := RouteOf(t'.services, t'.methodIndex, t'.contextOf, name, p);
            r.Bound? ==> r.serviceId != k
  {
    var t' := Unregister(t, k);
    var r := RouteOf(t'.services, t'.methodIndex, t'.contextOf, name, p);
    if r.Bound? {
      ConsistentRouting(t'.services, t'.methodIndex, t'.contextOf, name, p);
      var j :| Accepting(t'.services, t'.methodIndex[name], p) == {j};
      assert j in t'.services;
    }
  }

  /**
   * Every event keeps the registry consistent (each descriptor under its own
   * key, each key with a context), so `ConsistentRouting` and
   * `RemovedServiceNotRouted` hold of a running server, which starts with
   * empty tables.
   */
  lemma EveryEventKeepsConsistent(t: Tables, e: Event, terminalId: string)
    requires Ok(t) && Enabled(t, e) && Consistent(t.services, t.contextOf)
    ensures Consistent(Apply(t, e, terminalId).services, Apply(t, e, terminalId).contextOf)
  {
    match e
    case Added(s) => RegisterKeepsConsistent(t, s);
    case Removed(k) => UnregisterOutcome(t, k);
    case _ => ApplyKeepsRegistry(t, e, terminalId);
  }

  /** Only `addService` and `removeService` touch the registry. */
  lemma ApplyKeepsRegistry(t: Tables, e: Event, terminalId: string)
    requires Ok(t) && Enabled(t, e) && !e.Added? && !e.Removed?
    ensures SameRegistry(t, Apply(t, e, terminalId))
  {
    match e
    case Inbound(msg, now) => AcceptKeepsRegistry(t, msg, now, terminalId);
    case Completed(id, now) =>
      ProcessingIsReleasable(t, id);
      ProcessedKeepsRegistry(Clocked(t, now), id, terminalId);
    case Failed(id, error, now) =>
      ProcessingIsReleasable(t, id);
      ProcessedKeepsRegistry(Respond(Clocked(t, now), id, FailureResponse(error)), id, terminalId);
    case _ =>
  }

  /** The registry (descriptors and their contexts) of two tables. */
  ghost predicate SameRegistry(a: Tables, b: Tables) {
    a.services == b.services && a.contextOf == b.contextOf
  }

  lemma ProcessedKeepsRegistry(t: Tables, id: nat, terminalId: string)
    requires Releasable(t, id)
    ensures SameRegistry(t, EnterProcessed(t, id, terminalId))
  {
  }

  lemma RoutedKeepsRegistry(t: Tables, id: nat, terminalId: string)
    requires Attached(t, id) && id in t.sinks
    ensures SameRegistry(t, EnterRouted(t, id, terminalId))
  {
  }

  lemma InitializedKeepsRegistry(t: Tables, id: nat, terminalId: string)
    requires id in t.requests && id in t.sinks && t.requests[id].message.req.Some? && Live(t)
    ensures SameRegistry(t, EnterInitialized(t, id, terminalId))
  {
    var m := t.requests[id].message;
    var r := RouteOf(t.services, t.methodIndex, t.contextOf, m.methodName, m.req.value);
    if r.Bound? {
      BoundRouteIsRegistered(t.services, t.methodIndex, t.contextOf, m.methodName, m.req.value);
      RoutedKeepsRegistry(Bind(Stamped(t, id, terminalId), id, r.handle), id, terminalId);
    }
  }

  lemma AcceptKeepsRegistry(t: Tables, msg: Message, now: nat, terminalId: string)
    requires Live(t)
    ensures SameRegistry(t, Accept(t, msg, now, terminalId))
  {
    if IsRequest(msg) {
      InitializedKeepsRegistry(Received(t, msg, now), t.nextRequest, terminalId);
    }
  }
}
