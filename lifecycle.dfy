/**
 * The dispatcher's tables as one value, the invariant that ties them
 * together, and each subscriber of the request lifecycle of
 * libraries/protocol/src/server.ts as a step on that value. The class in
 * module Server performs these steps in place, method by method; the lemmas
 * here are what the steps keep and what they decide.
 */
module Lifecycle {
  import opened Wrappers
  import opened Messages
  import opened Services
  import opened RuntimeContext
  import opened Requests
  import opened Links

  /** Everything a `TerminalServer` holds that the lifecycle reads or writes. */
  datatype Tables = Tables(
    services: map<string, Service>,
    methodIndex: map<string, set<string>>,
    contextOf: map<string, nat>,
    runtimes: map<nat, Runtime>,
    nextHandle: nat,
    requests: map<nat, Request>,
    sinks: map<nat, Sink>,
    nextRequest: nat,
    clock: nat,
    metrics: seq<Metric>)

  /** The server invariant. */
  ghost predicate Ok(t: Tables) {
    HandlesOk(t.contextOf, t.runtimes, t.nextHandle) &&
    RuntimesOk(t.runtimes) &&
    QueuesLinked(t.runtimes, t.requests) &&
    RequestsPlaced(t.runtimes, t.requests) &&
    RequestsOk(t.requests, t.nextRequest, t.clock) &&
    SinksMatch(t.requests, t.sinks)
  }

  /** Every registered key's runtime context exists. */
  predicate Live(t: Tables) {
    forall k :: k in t.contextOf ==> t.contextOf[k] in t.runtimes
  }

  /** Request `id` is bound to a runtime context that exists (`serviceContext` is set). */
  predicate Attached(t: Tables, id: nat) {
    id in t.requests && t.requests[id].binding.Some? && t.requests[id].binding.value in t.runtimes
  }

  /**
   * What the Processed step needs: a bound request with a sink, and a queue
   * head that is a request bound to the same context.
   */
  predicate Releasable(t: Tables, id: nat) {
    Attached(t, id) && id in t.sinks &&
    var h := t.requests[id].binding.value;
    t.runtimes[h].pending != [] ==>
      t.runtimes[h].pending[0] in t.requests && t.requests[t.runtimes[h].pending[0]].binding == Some(h)
  }

  /** What the synchronous part of a request's lifecycle decides. */
  datatype Verdict = Rejected(response: Fragment) | Started | Queued

  /** Routing, then admission (503 when the queue is full), then the slot rule. */
  function VerdictOf(r: Route, runtimes: map<nat, Runtime>): (v: Verdict)
    requires r.Bound? ==> r.handle in runtimes
    ensures v.Rejected? ==> v.response.Response?
  {
    if !r.Bound? then Rejected(Rejection(r))
    else if !HasRoom(runtimes[r.handle]) then Rejected(Response(503, "Service Unavailable"))
    else if HasSlot(runtimes[r.handle]) then Started
    else Queued
  }

  /** The phase a verdict leaves the request in. */
  function PhaseAfter(v: Verdict): Phase {
    match v
    case Rejected(_) => Finalizing
    case Started => Processing
    case Queued => Pending
  }

  /** The duration observation of a finalized request, skipped when it was never stamped (`isNaN`). */
  function Observation(q: Request, s: Sink, terminalId: string): seq<Metric> {
    if q.stamps.initializedAt.Some? && q.stamps.finalizedAt.Some? then
      [RequestDuration(q.message.methodName, q.message.sourceTerminalId, terminalId, FinalCode(s), Elapsed(q))]
    else []
  }

  // The steps, one per subscriber.

  /** `output$.next(f)` on request `id`'s sink. */
  function Respond(t: Tables, id: nat, f: Fragment): Tables
    requires id in t.sinks
  {
    t.(sinks := t.sinks[id := Push(t.sinks[id], f)])
  }

  /** Finalizing: stamp, complete the sink, record one duration observation. */
  function EnterFinalizing(t: Tables, id: nat, terminalId: string): Tables
    requires id in t.requests && id in t.sinks
  {
    var q := Advance(t.requests[id], Finalizing, t.clock);
    t.(requests := t.requests[id := q],
       sinks := t.sinks[id := Close(t.sinks[id])],
       metrics := t.metrics + Observation(q, t.sinks[id], terminalId))
  }

  /** Processing: stamp and take a slot in the bound context. */
  function EnterProcessing(t: Tables, id: nat): Tables
    requires Attached(t, id)
  {
    var q := t.requests[id];
    var h := q.binding.value;
    t.(runtimes := t.runtimes[h := Occupy(t.runtimes[h], id)],
       requests := t.requests[id := Advance(q, Processing, t.clock)])
  }

  /** Pending: queue at the back when every slot is busy, otherwise go on to Processing. */
  function EnterPending(t: Tables, id: nat): Tables
    requires Attached(t, id)
  {
    var q := t.requests[id];
    var h := q.binding.value;
    if HasSlot(t.runtimes[h]) then EnterProcessing(t, id)
    else t.(runtimes := t.runtimes[h := Enqueue(t.runtimes[h], id)],
            requests := t.requests[id := q.(phase := Pending)])
  }

  /** The first half of Routed: stamp and `total_routed++`. */
  function Counted(t: Tables, id: nat): Tables
    requires Attached(t, id)
  {
    var q := t.requests[id];
    var h := q.binding.value;
    t.(requests := t.requests[id := Advance(q, Routed, t.clock)],
       runtimes := t.runtimes[h := CountRouted(t.runtimes[h])])
  }

  /** Routed: stamp, count, and refuse with 503 when the queue is full. */
  function EnterRouted(t: Tables, id: nat, terminalId: string): Tables
    requires Attached(t, id) && id in t.sinks
  {
    var t1 := Counted(t, id);
    if !HasRoom(t1.runtimes[t.requests[id].binding.value]) then
      EnterFinalizing(Respond(t1, id, Response(503, "Service Unavailable")), id, terminalId)
    else EnterPending(t1, id)
  }

  /** The first half of Initialized: stamp and count the received request. */
  function Stamped(t: Tables, id: nat, terminalId: string): Tables
    requires id in t.requests
  {
    var q := t.requests[id];
    var m := q.message;
    t.(requests := t.requests[id := Advance(q, Initialized, t.clock)],
       metrics := t.metrics + [RequestReceived(m.methodName, m.sourceTerminalId, terminalId)])
  }

  /** `requestContext.serviceContext = serviceContext`. */
  function Bind(t: Tables, id: nat, h: nat): Tables
    requires id in t.requests
  {
    t.(requests := t.requests[id := t.requests[id].(binding := Some(h))])
  }

  /**
   * Initialized: stamp, count the received request, route it; answer a
   * routing failure and finalize, or bind the request and go on to Routed.
   */
  ghost function EnterInitialized(t: Tables, id: nat, terminalId: string): Tables
    requires id in t.requests && id in t.sinks && t.requests[id].message.req.Some? && Live(t)
  {
    var m := t.requests[id].message;
    var t1 := Stamped(t, id, terminalId);
    var r := RouteOf(t.services, t.methodIndex, t.contextOf, m.methodName, m.req.value);
    if !r.Bound? then EnterFinalizing(Respond(t1, id, Rejection(r)), id, terminalId)
    else
      BoundRouteIsRegistered(t.services, t.methodIndex, t.contextOf, m.methodName, m.req.value);
      EnterRouted(Bind(t1, id, r.handle), id, terminalId)
  }

  /** A request message gets the next id, a fresh unstamped record and an open sink. */
  function Received(t: Tables, msg: Message, now: nat): Tables {
    var n := t.nextRequest;
    t.(clock := now,
       requests := t.requests[n := Request(msg, Initialized, None, Unstamped)],
       sinks := t.sinks[n := OpenSink],
       nextRequest := n + 1)
  }

  /**
   * An inbound message at time `now`: anything but a request is ignored; a
   * request is received and runs through the Initialized step.
   */
  ghost function Accept(t: Tables, msg: Message, now: nat, terminalId: string): Tables
    requires Live(t)
  {
    if !IsRequest(msg) then t.(clock := now)
    else EnterInitialized(Received(t, msg, now), t.nextRequest, terminalId)
  }

  /** The first part of Processed: stamp, `processing.delete`, `total_processed++`. */
  function Freed(t: Tables, id: nat): Tables
    requires Attached(t, id)
  {
    var q := t.requests[id];
    var h := q.binding.value;
    var rt := t.runtimes[h];
    t.(requests := t.requests[id := Advance(q, Processed, t.clock)],
       runtimes := t.runtimes[h := rt.(processing := rt.processing - {id}, totalProcessed := rt.totalProcessed + 1)])
  }

  /** `pending.shift()` on context `h`. */
  function Shifted(t: Tables, h: nat): Tables
    requires h in t.runtimes && t.runtimes[h].pending != []
  {
    t.(runtimes := t.runtimes[h := t.runtimes[h].(pending := t.runtimes[h].pending[1..])])
  }

  /**
   * Processed: stamp, free the slot and count, and finalize; then, if the
   * context's queue is not empty, shift its head and send it to Processing.
   */
  function EnterProcessed(t: Tables, id: nat, terminalId: string): Tables
    requires Releasable(t, id)
  {
    var h := t.requests[id].binding.value;
    var t1 := EnterFinalizing(Freed(t, id), id, terminalId);
    var queue := t.runtimes[h].pending;
    if queue == [] then t1 else EnterProcessing(Shifted(t1, h), queue[0])
  }

  /**
   * The same step with the slot handed over first: stamp, release (which
   * shifts the head into the processing set, see `Release`) and stamp the
   * head Processing. Finalizing then only remains; `ProcessedInEitherOrder`
   * shows both orders agree.
   */
  function Released(t: Tables, id: nat): Tables
    requires Releasable(t, id)
  {
    var q := t.requests[id];
    var h := q.binding.value;
    var rt := t.runtimes[h];
    var done := t.requests[id := Advance(q, Processed, t.clock)];
    var requests := if rt.pending == [] then done
                    else done[rt.pending[0] := Advance(done[rt.pending[0]], Processing, t.clock)];
    t.(runtimes := t.runtimes[h := Release(rt, id)], requests := requests)
  }

  /** The heartbeat tick: an empty fragment to every request queued on a listed context. */
  function Sweep(t: Tables): Tables
    requires t.sinks.Keys <= t.requests.Keys
  {
    t.(sinks := map id | id in t.sinks ::
                  if Beats(t.requests[id], t.contextOf.Values) then Push(t.sinks[id], Heartbeat) else t.sinks[id])
  }

  /** `addService`. */
  function Register(t: Tables, s: Service): Tables {
    var key := ServiceKey(s);
    var ids := if s.methodName in t.methodIndex then t.methodIndex[s.methodName] else {};
    t.(services := t.services[key := s],
       methodIndex := t.methodIndex[s.methodName := ids + {key}],
       runtimes := t.runtimes[t.nextHandle := FreshRuntime(s)],
       contextOf := t.contextOf[key := t.nextHandle],
       nextHandle := t.nextHandle + 1)
  }

  /** `removeService`: the descriptor and its candidate entry go; the runtime context stays. */
  function Unregister(t: Tables, id: string): Tables {
    if id !in t.services then t
    else
      var m := t.services[id].methodName;
      t.(services := t.services - {id},
         methodIndex := if m in t.methodIndex then t.methodIndex[m := t.methodIndex[m] - {id}] else t.methodIndex)
  }

  // Each step keeps the invariant.

  lemma OkIsLive(t: Tables)
    requires HandlesOk(t.contextOf, t.runtimes, t.nextHandle)
    ensures Live(t)
  {
  }

  lemma RespondKeepsOk(t: Tables, id: nat, f: Fragment)
    requires Ok(t) && id in t.sinks
    ensures Ok(Respond(t, id, f))
  {
    PushKeepsSinks(t.requests, t.sinks, id, f);
  }

  lemma FinalizingKeepsOk(t: Tables, id: nat, terminalId: string)
    requires Ok(t) && id in t.requests && t.requests[id].phase in {Initialized, Routed, Processed}
    requires t.requests[id].phase == Initialized ==> t.requests[id].stamps.initializedAt.Some?
    ensures Ok(EnterFinalizing(t, id, terminalId))
  {
    var q := Advance(t.requests[id], Finalizing, t.clock);
    AdvanceKeepsOk(t.requests[id], Finalizing, t.clock);
    RelabelKeepsLinks(t.runtimes, t.requests, id, q);
    UpdateKeepsRequestsOk(t.requests, t.nextRequest, t.clock, id, q);
    UpdateKeepsSinks(t.requests, t.sinks, id, q, Close(t.sinks[id]));
  }

  lemma ProcessingKeepsOk(t: Tables, id: nat)
    requires Ok(t) && id in t.requests && t.requests[id].phase == Routed
    requires HasSlot(t.runtimes[t.requests[id].binding.value])
    ensures Ok(EnterProcessing(t, id))
  {
    var q := t.requests[id];
    var h := q.binding.value;
    var rt := t.runtimes[h];
    OccupyKeepsInv(rt, id);
    var q' := Advance(q, Processing, t.clock);
    AdvanceKeepsOk(q, Processing, t.clock);
    ReplaceKeepsHandles(t.contextOf, t.runtimes, t.nextHandle, h, Occupy(rt, id));
    OccupyKeepsLinks(t.runtimes, t.requests, id, q');
    UpdateKeepsRequestsOk(t.requests, t.nextRequest, t.clock, id, q');
    RelabelKeepsSinks(t.requests, t.sinks, id, q');
  }

  /** Queueing a routed request behind busy slots. */
  lemma EnqueuedKeepsOk(t: Tables, id: nat)
    requires Ok(t) && Attached(t, id) && t.requests[id].phase == Routed
    requires HasRoom(t.runtimes[t.requests[id].binding.value]) && !HasSlot(t.runtimes[t.requests[id].binding.value])
    ensures Ok(EnterPending(t, id))
  {
    var q := t.requests[id];
    var h := q.binding.value;
    var rt := t.runtimes[h];
    EnqueueKeepsInv(rt, id);
    ReplaceKeepsContexts(t.contextOf, t.runtimes, t.nextHandle, h, Enqueue(rt, id));
    EnqueueKeepsLinks(t.runtimes, t.requests, id);
    UpdateKeepsRequestsOk(t.requests, t.nextRequest, t.clock, id, q.(phase := Pending));
    RelabelKeepsSinks(t.requests, t.sinks, id, q.(phase := Pending));
  }

  lemma PendingKeepsOk(t: Tables, id: nat)
    requires Ok(t) && id in t.requests && t.requests[id].phase == Routed
    requires HasRoom(t.runtimes[t.requests[id].binding.value])
    ensures Ok(EnterPending(t, id))
  {
    if HasSlot(t.runtimes[t.requests[id].binding.value]) {
      ProcessingKeepsOk(t, id);
    } else {
      EnqueuedKeepsOk(t, id);
    }
  }

  lemma CountedKeepsOk(t: Tables, id: nat)
    requires Ok(t) && Attached(t, id) && t.requests[id].phase == Initialized
    requires t.requests[id].stamps.initializedAt.Some?
    ensures Ok(Counted(t, id))
  {
    var q := t.requests[id];
    var h := q.binding.value;
    var q' := Advance(q, Routed, t.clock);
    var rt' := CountRouted(t.runtimes[h]);
    AdvanceKeepsOk(q, Routed, t.clock);
    RelabelKeepsLinks(t.runtimes, t.requests, id, q');
    UpdateKeepsRequestsOk(t.requests, t.nextRequest, t.clock, id, q');
    RelabelKeepsSinks(t.requests, t.sinks, id, q');
    RecountKeepsLinks(t.runtimes, t.requests[id := q'], h, rt');
    ReplaceKeepsHandles(t.contextOf, t.runtimes, t.nextHandle, h, rt');
  }

  lemma RoutedKeepsOk(t: Tables, id: nat, terminalId: string)
    requires Ok(t) && Attached(t, id) && t.requests[id].phase == Initialized
    requires t.requests[id].stamps.initializedAt.Some?
    ensures Ok(EnterRouted(t, id, terminalId))
  {
    CountedKeepsOk(t, id);
    var t1 := Counted(t, id);
    if !HasRoom(t1.runtimes[t.requests[id].binding.value]) {
      RespondKeepsOk(t1, id, Response(503, "Service Unavailable"));
      FinalizingKeepsOk(Respond(t1, id, Response(503, "Service Unavailable")), id, terminalId);
    } else {
      PendingKeepsOk(t1, id);
    }
  }

  lemma StampedKeepsOk(t: Tables, id: nat, terminalId: string)
    requires Ok(t) && id in t.requests && t.requests[id].phase == Initialized
    ensures Ok(Stamped(t, id, terminalId))
  {
    var q1 := Advance(t.requests[id], Initialized, t.clock);
    RelabelKeepsLinks(t.runtimes, t.requests, id, q1);
    UpdateKeepsRequestsOk(t.requests, t.nextRequest, t.clock, id, q1);
    RelabelKeepsSinks(t.requests, t.sinks, id, q1);
  }

  lemma BindKeepsOk(t: Tables, id: nat, h: nat)
    requires Ok(t) && id in t.requests && t.requests[id].phase == Initialized
    ensures Ok(Bind(t, id, h))
  {
    var q := t.requests[id].(binding := Some(h));
    RelabelKeepsLinks(t.runtimes, t.requests, id, q);
    UpdateKeepsRequestsOk(t.requests, t.nextRequest, t.clock, id, q);
    RelabelKeepsSinks(t.requests, t.sinks, id, q);
  }

  lemma InitializedKeepsOk(t: Tables, id: nat, terminalId: string)
    requires Ok(t) && id in t.requests && t.requests[id].phase == Initialized
    requires t.requests[id].binding.None? && t.requests[id].message.req.Some?
    ensures Live(t) && Ok(EnterInitialized(t, id, terminalId))
  {
    var m := t.requests[id].message;
    StampedKeepsOk(t, id, terminalId);
    var t1 := Stamped(t, id, terminalId);
    var r := RouteOf(t.services, t.methodIndex, t.contextOf, m.methodName, m.req.value);
    if !r.Bound? {
      RespondKeepsOk(t1, id, Rejection(r));
      FinalizingKeepsOk(Respond(t1, id, Rejection(r)), id, terminalId);
    } else {
      BoundRouteIsRegistered(t.services, t.methodIndex, t.contextOf, m.methodName, m.req.value);
      BindKeepsOk(t1, id, r.handle);
      RoutedKeepsOk(Bind(t1, id, r.handle), id, terminalId);
    }
  }

  lemma ReceivedKeepsOk(t: Tables, msg: Message, now: nat)
    requires Ok(t) && t.clock <= now
    ensures Ok(Received(t, msg, now))
  {
    var q := Request(msg, Initialized, None, Unstamped);
    ClockKeepsRequestsOk(t.requests, t.nextRequest, t.clock, now);
    InsertKeepsRecords(t.requests, t.nextRequest, now, t.sinks, q, OpenSink);
    InsertKeepsLinks(t.runtimes, t.requests, t.nextRequest, q);
  }

  lemma AcceptKeepsOk(t: Tables, msg: Message, now: nat, terminalId: string)
    requires Ok(t) && t.clock <= now
    ensures Live(t) && Ok(Accept(t, msg, now, terminalId))
  {
    ClockKeepsRequestsOk(t.requests, t.nextRequest, t.clock, now);
    if IsRequest(msg) {
      ReceivedKeepsOk(t, msg, now);
      InitializedKeepsOk(Received(t, msg, now), t.nextRequest, terminalId);
    }
  }

  /** A processing request can go through the Processed step; the head of its queue is another, queued request. */
  lemma ProcessingIsReleasable(t: Tables, id: nat)
    requires Ok(t) && id in t.requests && t.requests[id].phase == Processing
    ensures Releasable(t, id)
    ensures var rt := t.runtimes[t.requests[id].binding.value];
            id in rt.processing && Inv(rt) &&
            (rt.pending != [] ==> rt.pending[0] != id && rt.pending[0] !in rt.processing &&
                                  t.requests[rt.pending[0]].phase == Pending)
  {
  }

  /** The Processed step keeps the handle bookkeeping and every context's invariant. */
  lemma ReleasedKeepsContexts(t: Tables, id: nat)
    requires Ok(t) && id in t.requests && t.requests[id].phase == Processing
    ensures Releasable(t, id)
    ensures HandlesOk(t.contextOf, Released(t, id).runtimes, t.nextHandle) && RuntimesOk(Released(t, id).runtimes)
  {
    ProcessingIsReleasable(t, id);
    var h := t.requests[id].binding.value;
    var rt := t.runtimes[h];
    ReleaseKeepsInv(rt, id);
    ReplaceKeepsContexts(t.contextOf, t.runtimes, t.nextHandle, h, Release(rt, id));
    assert Released(t, id).runtimes == t.runtimes[h := Release(rt, id)];
  }

  /** The Processed step keeps queues and sets linked to the records. */
  lemma ReleasedKeepsLinks(t: Tables, id: nat)
    requires Ok(t) && id in t.requests && t.requests[id].phase == Processing
    ensures Releasable(t, id)
    ensures QueuesLinked(Released(t, id).runtimes, Released(t, id).requests)
    ensures RequestsPlaced(Released(t, id).runtimes, Released(t, id).requests)
  {
    ProcessingIsReleasable(t, id);
    var q := t.requests[id];
    var rt := t.runtimes[q.binding.value];
    var done := Advance(q, Processed, t.clock);
    if rt.pending == [] {
      ReleaseIdleKeepsLinks(t.runtimes, t.requests, id, done);
    } else {
      ReleasePromotingKeepsLinks(t.runtimes, t.requests, id, done, Advance(t.requests[rt.pending[0]], Processing, t.clock));
    }
  }

  /** The Processed step with nothing queued keeps the records well formed and the sinks matched. */
  lemma ReleasedIdleKeepsRecords(t: Tables, id: nat)
    requires Ok(t) && id in t.requests && t.requests[id].phase == Processing
    requires t.runtimes[t.requests[id].binding.value].pending == []
    ensures Releasable(t, id)
    ensures RequestsOk(Released(t, id).requests, t.nextRequest, t.clock)
    ensures SinksMatch(Released(t, id).requests, t.sinks)
  {
    ProcessingIsReleasable(t, id);
    var q := t.requests[id];
    var done := Advance(q, Processed, t.clock);
    AdvanceKeepsOk(q, Processed, t.clock);
    UpdateKeepsRequestsOk(t.requests, t.nextRequest, t.clock, id, done);
    RelabelKeepsSinks(t.requests, t.sinks, id, done);
  }

  /** The Processed step with a queue keeps the records well formed and the sinks matched. */
  lemma ReleasedPromotingKeepsRecords(t: Tables, id: nat)
    requires Ok(t) && id in t.requests && t.requests[id].phase == Processing
    requires t.runtimes[t.requests[id].binding.value].pending != []
    ensures Releasable(t, id)
    ensures RequestsOk(Released(t, id).requests, t.nextRequest, t.clock)
    ensures SinksMatch(Released(t, id).requests, t.sinks)
  {
    ProcessingIsReleasable(t, id);
    var q := t.requests[id];
    var head := t.runtimes[q.binding.value].pending[0];
    AdvanceKeepsOk(q, Processed, t.clock);
    AdvanceKeepsOk(t.requests[head], Processing, t.clock);
    PromoteKeepsRecords(t.requests, t.nextRequest, t.clock, t.sinks, id, Advance(q, Processed, t.clock), head,
                        Advance(t.requests[head], Processing, t.clock));
  }

  /** Processed up to finalizing keeps the invariant; the request itself is stamped Processed. */
  lemma ReleasedKeepsOk(t: Tables, id: nat)
    requires Ok(t) && id in t.requests && t.requests[id].phase == Processing
    ensures Releasable(t, id) && Ok(Released(t, id))
    ensures Released(t, id).requests[id] == Advance(t.requests[id], Processed, t.clock)
    ensures id in Released(t, id).requests && id in Released(t, id).sinks
    ensures Released(t, id).requests[id].phase == Processed
  {
    ProcessingIsReleasable(t, id);
    AdvanceKeepsOk(t.requests[id], Processed, t.clock);
    ReleasedKeepsContexts(t, id);
    ReleasedKeepsLinks(t, id);
    if t.runtimes[t.requests[id].binding.value].pending == [] {
      ReleasedIdleKeepsRecords(t, id);
    } else {
      ReleasedPromotingKeepsRecords(t, id);
    }
  }

  /**
   * Finalizing before or after the head of the queue is started makes no
   * difference: the two touch different records, and the head is never the
   * request that finished.
   */
  lemma ProcessedInEitherOrder(t: Tables, id: nat, terminalId: string)
    requires Releasable(t, id)
    requires var rt := t.runtimes[t.requests[id].binding.value];
             rt.pending != [] ==> rt.pending[0] != id
    ensures EnterProcessed(t, id, terminalId) == EnterFinalizing(Released(t, id), id, terminalId)
  {
    var h := t.requests[id].binding.value;
    var a := EnterProcessed(t, id, terminalId);
    var b := EnterFinalizing(Released(t, id), id, terminalId);
    if t.runtimes[h].pending != [] {
      var p := t.runtimes[h].pending[0];
      var done := Advance(t.requests[id], Processed, t.clock);
      var finished := Advance(done, Finalizing, t.clock);
      var started := Advance(t.requests[p], Processing, t.clock);
      assert a.requests == t.requests[id := done][id := finished][p := started];
      assert b.requests == t.requests[id := done][p := started][id := finished];
      Swap(t.requests[id := done], id, finished, p, started);
      assert a.runtimes[h] == b.runtimes[h];
      assert a.runtimes == b.runtimes;
    }
  }

  lemma ProcessedKeepsOk(t: Tables, id: nat, terminalId: string)
    requires Ok(t) && id in t.requests && t.requests[id].phase == Processing
    ensures Releasable(t, id) && Ok(EnterProcessed(t, id, terminalId))
  {
    ProcessingIsReleasable(t, id);
    ProcessedInEitherOrder(t, id, terminalId);
    ReleasedKeepsOk(t, id);
    FinalizingKeepsOk(Released(t, id), id, terminalId);
  }

  lemma SweepKeepsOk(t: Tables)
    requires Ok(t)
    ensures Ok(Sweep(t))
  {
    var t' := Sweep(t);
    forall id | id in t'.sinks
      ensures (t'.sinks[id].closed <==> t'.requests[id].phase == Finalizing) && Tracks(t'.sinks[id])
    {
      PushKeepsTracking(t.sinks[id], Heartbeat);
    }
  }

  lemma RegisterKeepsOk(t: Tables, s: Service)
    requires Ok(t)
    ensures Ok(Register(t, s))
  {
    FreshRuntimeInv(s);
    InstallKeepsLinks(t.runtimes, t.requests, t.nextHandle, FreshRuntime(s));
  }
}
