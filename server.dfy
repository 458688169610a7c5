/**
 * The request dispatcher `TerminalServer` (libraries/protocol/src/server.ts):
 * the service registry, the per-service runtime contexts, the request
 * lifecycle state machine and the heartbeat sweep, as a class whose fields
 * the methods update in place.
 *
 * Each rxjs Subject subscriber of the source is one method here; `next` on a
 * Subject runs its subscriber synchronously, so the chain that starts at an
 * inbound message (Initialized, Routed, Pending, Processing) runs inside one
 * call of `Receive`. The handler runs outside the model: its streamed output,
 * its completion and its failure (error or timeout) arrive as calls of
 * `HandlerEmit`, `HandlerCompleted` and `HandlerFailed`.
 *
 * Every method is tied to the value-level step it performs on `Snapshot()`
 * (module Lifecycle); the methods the outside world calls keep `Valid()` and
 * perform exactly `Apply` of their event (module Events).
 */
module Server {
  import opened Wrappers
  import opened Messages
  import opened Services
  import opened RuntimeContext
  import opened Requests
  import opened Links
  import opened Lifecycle
  import opened Events

  /** The contexts listed under the given registry keys. */
  function HandlesOf(contextOf: map<string, nat>, keys: set<string>): set<nat> {
    set k | k in keys && k in contextOf :: contextOf[k]
  }

  /** Every listed context is listed under some key. */
  lemma AllHandles(contextOf: map<string, nat>)
    ensures HandlesOf(contextOf, contextOf.Keys) == contextOf.Values
  {
    forall h | h in contextOf.Values ensures h in HandlesOf(contextOf, contextOf.Keys) {
      var k :| k in contextOf && contextOf[k] == h;
    }
  }

  /**
   * The sinks once a heartbeat has reached every request queued on one of
   * `handles` and every request in `extra`.
   */
  ghost function Swept(sinks: map<nat, Sink>, requests: map<nat, Request>, handles: set<nat>, extra: seq<nat>)
    : map<nat, Sink>
    requires sinks.Keys <= requests.Keys
  {
    map id | id in sinks :: if Beats(requests[id], handles) || id in extra then Push(sinks[id], Heartbeat) else sinks[id]
  }

  /** Reaching every listed context is the heartbeat tick. */
  lemma SweptIsSweep(t: Tables)
    requires t.sinks.Keys <= t.requests.Keys
    ensures Swept(t.sinks, t.requests, t.contextOf.Values, []) == Sweep(t).sinks
  {
  }

  /** One more request hears the heartbeat. */
  lemma SweptStep(sinks: map<nat, Sink>, requests: map<nat, Request>, handles: set<nat>, extra: seq<nat>, id: nat)
    requires sinks.Keys <= requests.Keys && id in sinks && id !in extra && !Beats(requests[id], handles)
    ensures Swept(sinks, requests, handles, extra + [id]) ==
              Swept(sinks, requests, handles, extra)[id := Push(sinks[id], Heartbeat)]
  {
  }

  /** A listed context's queue holds exactly the Pending requests bound to it. */
  lemma QueueJoinsSweep(t: Tables, h: nat, handles: set<nat>)
    requires Ok(t) && h in t.runtimes
    ensures t.sinks.Keys <= t.requests.Keys
    ensures Swept(t.sinks, t.requests, handles, t.runtimes[h].pending) == Swept(t.sinks, t.requests, handles + {h}, [])
  {
    SinksOfRequests(t);
    var queue := t.runtimes[h].pending;
    forall id | id in t.sinks
      ensures (Beats(t.requests[id], handles) || id in queue) <==> Beats(t.requests[id], handles + {h})
    {
      if id in queue {
        var i :| 0 <= i < |queue| && queue[i] == id;
        assert t.requests[id].binding == Some(h);
      }
    }
  }

  /**
   * What the sweep needs of the context listed under a key not yet visited:
   * it is live, no earlier key lists it, and its queue holds distinct
   * requests bound to it, each with a sink.
   */
  lemma ListedQueue(t: Tables, seen: set<string>, k: string)
    requires Ok(t) && k in t.contextOf && k !in seen
    ensures t.contextOf[k] in t.runtimes && t.contextOf[k] !in HandlesOf(t.contextOf, seen)
    ensures var queue := t.runtimes[t.contextOf[k]].pending;
            NoDup(queue) &&
            forall i :: 0 <= i < |queue| ==> queue[i] in t.sinks && !Beats(t.requests[queue[i]], HandlesOf(t.contextOf, seen))
  {
    SinksOfRequests(t);
    forall j | j in seen && j in t.contextOf
      ensures t.contextOf[j] != t.contextOf[k]
    {
      assert j != k;
    }
  }

  class TerminalServer {
    /** `terminal.terminal_id`, the target id reported in every metric. */
    const terminalId: string
    /** `mapServiceIdToService` */
    var services: map<string, Service>
    /** `_mapMethodToServiceIds` */
    var methodIndex: map<string, set<string>>
    /** `_mapServiceIdToServiceRuntimeContext`, as handles into `runtimes` */
    var contextOf: map<string, nat>
    /** The runtime context objects, including replaced ones still bound to requests. */
    var runtimes: map<nat, Runtime>
    var nextHandle: nat
    /** The request context objects. */
    var requests: map<nat, Request>
    /** Each request's `output$`. */
    var sinks: map<nat, Sink>
    var nextRequest: nat
    /** `Date.now()`, as an abstract non-decreasing clock. */
    var clock: nat
    /** The counter and histogram calls received by the metrics collaborator. */
    var metrics: seq<Metric>

    /** The server's state as a value. */
    ghost function Snapshot(): Tables
      reads this
    {
      Tables(services, methodIndex, contextOf, runtimes, nextHandle, requests, sinks, nextRequest, clock, metrics)
    }

    ghost predicate Valid()
      reads this
    {
      Ok(Snapshot())
    }

    constructor (terminalId: string)
      ensures Valid() && Consistent(services, contextOf)
      ensures this.terminalId == terminalId
      ensures Snapshot() == Tables(map[], map[], map[], map[], 0, map[], map[], 0, 0, [])
    {
      this.terminalId := terminalId;
      services, methodIndex, contextOf, runtimes := map[], map[], map[], map[];
      nextHandle := 0;
      requests, sinks, nextRequest := map[], map[], 0;
      clock := 0;
      metrics := [];
    }

    /**
     * `addService`: store the descriptor under `service_id || method`, add
     * that key to the method's candidates, and install a fresh runtime
     * context under it. `Outcomes.RegisterOutcome` states what this means.
     */
    method AddService(s: Service)
      requires Valid()
      modifies this
      ensures Valid()
      ensures Snapshot() == Register(old(Snapshot()), s)
    {
      ghost var t0 := Snapshot();
      Install(s);
      RegisterKeepsOk(t0, s);
    }

    /** The three map updates of `addService`, in the source's order. */
    method Install(s: Service)
      modifies this
      ensures Snapshot() == Register(old(Snapshot()), s)
    {
      var key := ServiceKey(s);
      services := services[key := s];
      var ids := if s.methodName in methodIndex then methodIndex[s.methodName] else {};
      methodIndex := methodIndex[s.methodName := ids + {key}];
      var h := nextHandle;
      runtimes := runtimes[h := FreshRuntime(s)];
      contextOf := contextOf[key := h];
      nextHandle := h + 1;
    }

    /**
     * `removeService`: an unknown id changes nothing; otherwise the
     * descriptor goes and the id leaves its method's candidates, while the
     * runtime context stays (see `Outcomes.UnregisterOutcome`).
     */
    method RemoveService(id: string)
      requires Valid()
      modifies this
      ensures Valid()
      ensures Snapshot() == Unregister(old(Snapshot()), id)
    {
      if id !in services {
        return;
      }
      var m := services[id].methodName;
      services := services - {id};
      if m in methodIndex {
        methodIndex := methodIndex[m := methodIndex[m] - {id}];
      }
    }

    /**
     * The `for … of candidates` loop of the Initialized transition: skip ids
     * without a descriptor and stop at the second accepting validator.
     */
    method ScanCandidates(candidates: set<string>, p: Payload) returns (ambiguous: bool, target: Option<string>)
      ensures ambiguous <==> |Accepting(services, candidates, p)| > 1
      ensures !ambiguous && target.None? ==> Accepting(services, candidates, p) == {}
      ensures !ambiguous && target.Some? ==> Accepting(services, candidates, p) == {target.value}
    {
      var remaining := candidates;
      target := None;
      ghost var seen: set<string> := {};
      while remaining != {}
        invariant remaining + seen == candidates && remaining !! seen
        invariant target.None? ==> Accepting(services, seen, p) == {}
        invariant target.Some? ==> Accepting(services, seen, p) == {target.value}
        decreases remaining
      {
        var k :| k in remaining;
        AcceptingGrows(services, seen, k, p);
        if k in services && services[k].validator(p) {
          if target.Some? {
            TwoAcceptors(services, candidates, p, target.value, k);
            return true, target;
          }
          target := Some(k);
        }
        remaining := remaining - {k};
        seen := seen + {k};
      }
      assert seen == candidates;
      return false, target;
    }

    /**
     * The routing of the Initialized transition: unknown method, ambiguity,
     * no match, then the winner's runtime context, looked up by the winner's
     * own `service_id || method`.
     */
    method FindTarget(name: string, p: Payload) returns (r: Route)
      ensures r == RouteOf(services, methodIndex, contextOf, name, p)
    {
      if name !in methodIndex {
        return MethodNotFound;
      }
      var ambiguous, target := ScanCandidates(methodIndex[name], p);
      if ambiguous {
        return AmbiguousService;
      }
      if target.None? {
        return NoMatchingService;
      }
      ghost var acc := Accepting(services, methodIndex[name], p);
      forall j | j in acc ensures j == target.value { }
      var key := ServiceKey(services[target.value]);
      if key !in contextOf {
        return ServiceNotFound;
      }
      return Bound(key, contextOf[key]);
    }

    // The subscribers.

    /** `output$.next(f)`, and the subscriber that remembers the last response. */
    method Emit(id: nat, f: Fragment)
      requires id in sinks
      modifies this
      ensures Snapshot() == Respond(old(Snapshot()), id, f)
    {
      sinks := sinks[id := Push(sinks[id], f)];
    }

    /**
     * Finalizing: stamp, complete the sink, and record one duration
     * observation tagged with the last response code (520 if none).
     */
    method OnFinalizing(id: nat)
      requires id in requests && id in sinks
      modifies this
      ensures Snapshot() == EnterFinalizing(old(Snapshot()), id, terminalId)
    {
      var q := Advance(requests[id], Finalizing, clock);
      requests := requests[id := q];
      var observed := Observation(q, sinks[id], terminalId);
      sinks := sinks[id := Close(sinks[id])];
      metrics := metrics + observed;
    }

    /** Processing: stamp and take a slot. The handler itself is started outside the model. */
    method OnProcessing(id: nat)
      requires Attached(Snapshot(), id)
      modifies this
      ensures Snapshot() == EnterProcessing(old(Snapshot()), id)
    {
      var q := requests[id];
      requests := requests[id := Advance(q, Processing, clock)];
      var h := q.binding.value;
      runtimes := runtimes[h := Occupy(runtimes[h], id)];
    }

    /** Pending (the waiting room): queue at the back when every slot is busy, else start. */
    method OnPending(id: nat)
      requires Attached(Snapshot(), id)
      modifies this
      ensures Snapshot() == EnterPending(old(Snapshot()), id)
    {
      var q := requests[id];
      var h := q.binding.value;
      if !HasSlot(runtimes[h]) {
        runtimes := runtimes[h := Enqueue(runtimes[h], id)];
        requests := requests[id := q.(phase := Pending)];
        return;
      }
      OnProcessing(id);
    }

    /** Routed: stamp, count the request, and turn it away with 503 when the queue is full. */
    method OnRouted(id: nat)
      requires Attached(Snapshot(), id) && id in sinks
      modifies this
      ensures Snapshot() == EnterRouted(old(Snapshot()), id, terminalId)
    {
      ghost var t0 := Snapshot();
      var q := requests[id];
      requests := requests[id := Advance(q, Routed, clock)];
      var h := q.binding.value;
      runtimes := runtimes[h := CountRouted(runtimes[h])];
      assert Snapshot() == Counted(t0, id);
      if !HasRoom(runtimes[h]) {
        Emit(id, Response(503, "Service Unavailable"));
        OnFinalizing(id);
        return;
      }
      OnPending(id);
    }

    /**
     * Initialized: stamp, count the received request, route it, and either
     * answer with the routing error and finalize, or bind it and go on.
     */
    method OnInitialized(id: nat)
      requires id in requests && id in sinks && requests[id].message.req.Some? && Live(Snapshot())
      modifies this
      ensures Snapshot() == EnterInitialized(old(Snapshot()), id, terminalId)
    {
      ghost var t0 := Snapshot();
      var q := requests[id];
      requests := requests[id := Advance(q, Initialized, clock)];
      metrics := metrics + [RequestReceived(q.message.methodName, q.message.sourceTerminalId, terminalId)];
      assert Snapshot() == Stamped(t0, id, terminalId);
      var r := FindTarget(q.message.methodName, q.message.req.value);
      if !r.Bound? {
        Emit(id, Rejection(r));
        OnFinalizing(id);
        return;
      }
      BoundRouteIsRegistered(services, methodIndex, contextOf, q.message.methodName, q.message.req.value);
      requests := requests[id := requests[id].(binding := Some(r.handle))];
      OnRouted(id);
    }

    /**
     * Processed: stamp, free the slot and count, finalize, and then shift the
     * head of the same context's queue into Processing.
     */
    method OnProcessed(id: nat)
      requires Releasable(Snapshot(), id)
      modifies this
      ensures Snapshot() == EnterProcessed(old(Snapshot()), id, terminalId)
    {
      ghost var t0 := Snapshot();
      var q := requests[id];
      requests := requests[id := Advance(q, Processed, clock)];
      var h := q.binding.value;
      var rt := runtimes[h];
      runtimes := runtimes[h := rt.(processing := rt.processing - {id}, totalProcessed := rt.totalProcessed + 1)];
      assert Snapshot() == Freed(t0, id);
      OnFinalizing(id);
      if runtimes[h].pending != [] {
        var next := runtimes[h].pending[0];
        runtimes := runtimes[h := runtimes[h].(pending := runtimes[h].pending[1..])];
        OnProcessing(next);
      }
    }

    // The events.

    /**
     * The input subscriber past its filter: a request message gets the next
     * id, a fresh record (`initilized_at` and the other stamps NaN) and a
     * fresh `output$`, and enters Initialized.
     */
    method OpenRequest(msg: Message, now: nat) returns (n: nat)
      requires IsRequest(msg) && Live(Snapshot())
      modifies this
      ensures n == old(nextRequest)
      ensures Snapshot() == Accept(old(Snapshot()), msg, now, terminalId)
    {
      ghost var t0 := Snapshot();
      clock := now;
      n := nextRequest;
      requests := requests[n := Request(msg, Initialized, None, Unstamped)];
      sinks := sinks[n := OpenSink];
      nextRequest := n + 1;
      assert Snapshot() == Received(t0, msg, now);
      OnInitialized(n);
    }

    /**
     * An inbound message at time `now`. Anything that is not a request (no
     * method, no payload, a frame or a response) is ignored; a request runs
     * through the synchronous part of its lifecycle (see
     * `Outcomes.AcceptOutcome`).
     */
    method Receive(msg: Message, now: nat) returns (id: Option<nat>)
      requires Valid() && clock <= now
      modifies this
      ensures Valid()
      ensures Snapshot() == Apply(old(Snapshot()), Inbound(msg, now), terminalId)
      ensures IsRequest(msg) ==> id == Some(old(nextRequest))
      ensures !IsRequest(msg) ==> id.None?
    {
      ghost var t0 := Snapshot();
      if !IsRequest(msg) {
        clock := now;
        id := None;
      } else {
        OkIsLive(t0);
        var n := OpenRequest(msg, now);
        id := Some(n);
      }
      ApplyCases(t0, Inbound(msg, now), terminalId);
      ApplyKeepsOk(t0, Inbound(msg, now), terminalId);
    }

    /** The running handler of request `id` streams `f` to the caller. */
    method HandlerEmit(id: nat, f: Fragment)
      requires Valid() && id in requests && requests[id].phase == Processing
      modifies this
      ensures Valid()
      ensures Snapshot() == Apply(old(Snapshot()), Emitted(id, f), terminalId)
    {
      ghost var t0 := Snapshot();
      ApplyCases(t0, Emitted(id, f), terminalId);
      ApplyKeepsOk(t0, Emitted(id, f), terminalId);
      Emit(id, f);
    }

    /** The handler of request `id` completed at `now` (see `Outcomes.CompleteOutcome`). */
    method HandlerCompleted(id: nat, now: nat)
      requires Valid() && clock <= now && id in requests && requests[id].phase == Processing
      modifies this
      ensures Valid()
      ensures Snapshot() == Apply(old(Snapshot()), Completed(id, now), terminalId)
    {
      ghost var t0 := Snapshot();
      ProcessingIsReleasable(t0, id);
      clock := now;
      OnProcessed(id);
      ApplyCases(t0, Completed(id, now), terminalId);
      ApplyKeepsOk(t0, Completed(id, now), terminalId);
    }

    /**
     * The handler of request `id` threw or timed out at `now`: `catchError`
     * substitutes one 500 response, then the stream completes (see
     * `Outcomes.FailOutcome`).
     */
    method HandlerFailed(id: nat, error: string, now: nat)
      requires Valid() && clock <= now && id in requests && requests[id].phase == Processing
      modifies this
      ensures Valid()
      ensures Snapshot() == Apply(old(Snapshot()), Failed(id, error, now), terminalId)
    {
      ghost var t0 := Snapshot();
      ProcessingIsReleasable(t0, id);
      clock := now;
      Emit(id, FailureResponse(error));
      OnProcessed(id);
      ApplyCases(t0, Failed(id, error, now), terminalId);
      ApplyKeepsOk(t0, Failed(id, error, now), terminalId);
    }

    /**
     * The inner `pending.forEach` of the heartbeat: one empty fragment to each
     * request of `queue`, none of which has heard this tick yet.
     */
    method BeatQueue(queue: seq<nat>, ghost base: map<nat, Sink>, ghost reqs: map<nat, Request>,
                     ghost handles: set<nat>)
      requires base.Keys <= reqs.Keys && NoDup(queue)
      requires forall i :: 0 <= i < |queue| ==> queue[i] in base && !Beats(reqs[queue[i]], handles)
      requires sinks == Swept(base, reqs, handles, [])
      modifies this`sinks
      ensures sinks == Swept(base, reqs, handles, queue)
    {
      var j := 0;
      while j < |queue|
        invariant 0 <= j <= |queue|
        invariant sinks == Swept(base, reqs, handles, queue[..j])
      {
        var id := queue[j];
        assert queue[..j + 1] == queue[..j] + [id];
        SweptStep(base, reqs, handles, queue[..j], id);
        sinks := sinks[id := Push(sinks[id], Heartbeat)];
        j := j + 1;
      }
      assert queue[..j] == queue;
    }

    /**
     * The outer `forEach` of the heartbeat, over the listed runtime contexts:
     * afterwards exactly the requests queued on a listed context have heard
     * one heartbeat.
     */
    method BeatContexts(ghost t: Tables)
      requires Ok(t) && t.contextOf == contextOf && t.runtimes == runtimes && t.sinks == sinks
      modifies this`sinks
      ensures t.sinks.Keys <= t.requests.Keys
      ensures sinks == Sweep(t).sinks
    {
      SinksOfRequests(t);
      var keys := contextOf.Keys;
      ghost var seen: set<string> := {};
      assert sinks == Swept(t.sinks, t.requests, HandlesOf(t.contextOf, seen), []);
      while keys != {}
        invariant keys + seen == t.contextOf.Keys && keys !! seen
        invariant sinks == Swept(t.sinks, t.requests, HandlesOf(t.contextOf, seen), [])
        decreases keys
      {
        var k :| k in keys;
        ListedQueue(t, seen, k);
        var h := contextOf[k];
        BeatQueue(runtimes[h].pending, t.sinks, t.requests, HandlesOf(t.contextOf, seen));
        QueueJoinsSweep(t, h, HandlesOf(t.contextOf, seen));
        assert HandlesOf(t.contextOf, seen + {k}) == HandlesOf(t.contextOf, seen) + {h};
        keys := keys - {k};
        seen := seen + {k};
      }
      assert seen == t.contextOf.Keys;
      AllHandles(t.contextOf);
      SweptIsSweep(t);
    }

    /**
     * The heartbeat interval: an empty fragment to every request waiting in
     * the queue of every listed runtime context (see
     * `Outcomes.OnlyQueuedHearBeats`).
     */
    method HeartbeatTick()
      requires Valid()
      modifies this`sinks
      ensures Valid()
      ensures Snapshot() == Apply(old(Snapshot()), Beat, terminalId)
    {
      ghost var t0 := Snapshot();
      ApplyCases(t0, Beat, terminalId);
      ApplyKeepsOk(t0, Beat, terminalId);
      BeatContexts(t0);
      assert Snapshot() == Sweep(t0);
    }
  }
}
