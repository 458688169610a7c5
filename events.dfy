/**
 * What reaches the dispatcher from outside, as events on the tables: an
 * inbound message, the handler's streamed value, completion or failure of
 * a handler, the heartbeat interval, and the two registry calls. Every event
 * keeps the invariant, and a finalized request is never touched again.
 */
module Events {
  import opened Wrappers
  import opened Messages
  import opened Services
  import opened RuntimeContext
  import opened Requests
  import opened Links
  import opened Lifecycle

  datatype Event =
    | Inbound(msg: Message, now: nat)
    | Emitted(id: nat, f: Fragment)
    | Completed(id: nat, now: nat)
    | Failed(id: nat, error: string, now: nat)
    | Beat
    | Added(s: Service)
    | Removed(serviceId: string)

  /** `Date.now()` has moved on to `now`. */
  function Clocked(t: Tables, now: nat): Tables {
    t.(clock := now)
  }

  /** The response `catchError` substitutes when a handler throws or times out. */
  function FailureResponse(error: string): Fragment {
    Response(500, "Internal Server Error: " + error)
  }

  /** The handler's stream completed: the request goes through Processed. */
  function Complete(t: Tables, id: nat, now: nat, terminalId: string): Tables
    requires Releasable(t, id)
  {
    EnterProcessed(Clocked(t, now), id, terminalId)
  }

  /** The handler failed: one 500 response, then Processed. */
  function Fail(t: Tables, id: nat, error: string, now: nat, terminalId: string): Tables
    requires Releasable(t, id)
  {
    EnterProcessed(Respond(Clocked(t, now), id, FailureResponse(error)), id, terminalId)
  }

  /**
   * When an event can happen: time does not go back, and only a request
   * whose handler is running (Processing) hears from its handler.
   */
  ghost predicate Enabled(t: Tables, e: Event) {
    match e
    case Inbound(_, now) => t.clock <= now
    case Emitted(id, _) => id in t.requests && t.requests[id].phase == Processing
    case Completed(id, now) => t.clock <= now && id in t.requests && t.requests[id].phase == Processing
    case Failed(id, _, now) => t.clock <= now && id in t.requests && t.requests[id].phase == Processing
    case Beat => true
    case Added(_) => true
    case Removed(_) => true
  }

  /** The effect of one event. */
  ghost function Apply(t: Tables, e: Event, terminalId: string): Tables
    requires Ok(t) && Enabled(t, e)
  {
    match e
    case Inbound(msg, now) =>
      AcceptKeepsOk(t, msg, now, terminalId);
      Accept(t, msg, now, terminalId)
    case Emitted(id, f) =>
      ProcessingIsReleasable(t, id);
      Respond(t, id, f)
    case Completed(id, now) =>
      ProcessingIsReleasable(t, id);
      Complete(t, id, now, terminalId)
    case Failed(id, error, now) =>
      ProcessingIsReleasable(t, id);
      Fail(t, id, error, now, terminalId)
    case Beat =>
      SinksOfRequests(t);
      Sweep(t)
    case Added(s) => Register(t, s)
    case Removed(k) => Unregister(t, k)
  }

  lemma SinksOfRequests(t: Tables)
    requires Ok(t)
    ensures t.sinks.Keys == t.requests.Keys
  {
  }

  lemma ClockedKeepsOk(t: Tables, now: nat)
    requires Ok(t) && t.clock <= now
    ensures Ok(Clocked(t, now))
  {
    ClockKeepsRequestsOk(t.requests, t.nextRequest, t.clock, now);
  }

  lemma CompleteKeepsOk(t: Tables, id: nat, now: nat, terminalId: string)
    requires Ok(t) && t.clock <= now && id in t.requests && t.requests[id].phase == Processing
    ensures Releasable(t, id) && Ok(Complete(t, id, now, terminalId))
  {
    ProcessingIsReleasable(t, id);
    ClockedKeepsOk(t, now);
    ProcessedKeepsOk(Clocked(t, now), id, terminalId);
  }

  lemma FailKeepsOk(t: Tables, id: nat, error: string, now: nat, terminalId: string)
    requires Ok(t) && t.clock <= now && id in t.requests && t.requests[id].phase == Processing
    ensures Releasable(t, id) && Ok(Fail(t, id, error, now, terminalId))
  {
    ProcessingIsReleasable(t, id);
    ClockedKeepsOk(t, now);
    RespondKeepsOk(Clocked(t, now), id, FailureResponse(error));
    ProcessedKeepsOk(Respond(Clocked(t, now), id, FailureResponse(error)), id, terminalId);
  }

  /** Every event keeps the invariant. */
  lemma ApplyKeepsOk(t: Tables, e: Event, terminalId: string)
    requires Ok(t) && Enabled(t, e)
    ensures Ok(Apply(t, e, terminalId))
  {
    match e
    case Inbound(msg, now) => AcceptKeepsOk(t, msg, now, terminalId);
    case Emitted(id, f) =>
      ProcessingIsReleasable(t, id);
      RespondKeepsOk(t, id, f);
    case Completed(id, now) => CompleteKeepsOk(t, id, now, terminalId);
    case Failed(id, error, now) => FailKeepsOk(t, id, error, now, terminalId);
    case Beat => SweepKeepsOk(t);
    case Added(s) => RegisterKeepsOk(t, s);
    case Removed(k) =>
  }

  /**
   * Admission and the slot rule hold after every event: no context ever
   * queues more than its capacity or runs more handlers than its concurrency,
   * and a request waits only while every slot is busy.
   */
  lemma LimitsAlwaysHold(t: Tables, e: Event, terminalId: string)
    requires Ok(t) && Enabled(t, e)
    ensures var t' := Apply(t, e, terminalId);
            forall h :: h in t'.runtimes ==>
              && Within(|t'.runtimes[h].pending|, t'.runtimes[h].capacity)
              && Within(|t'.runtimes[h].processing|, t'.runtimes[h].concurrency)
              && (t'.runtimes[h].pending != [] ==> !HasSlot(t'.runtimes[h]))
  {
    ApplyKeepsOk(t, e, terminalId);
    var t' := Apply(t, e, terminalId);
    forall h | h in t'.runtimes
      ensures Inv(t'.runtimes[h])
    {
    }
  }

  /** `Apply`, one event kind at a time. */
  lemma ApplyCases(t: Tables, e: Event, terminalId: string)
    requires Ok(t) && Enabled(t, e)
    ensures e.Inbound? ==> Live(t) && Apply(t, e, terminalId) == Accept(t, e.msg, e.now, terminalId)
    ensures e.Emitted? || e.Completed? || e.Failed? ==> Releasable(t, e.id)
    ensures e.Emitted? ==> Apply(t, e, terminalId) == Respond(t, e.id, e.f)
    ensures e.Completed? ==> Apply(t, e, terminalId) == Complete(t, e.id, e.now, terminalId)
    ensures e.Failed? ==> Apply(t, e, terminalId) == Fail(t, e.id, e.error, e.now, terminalId)
    ensures e.Beat? ==> t.sinks.Keys <= t.requests.Keys && Apply(t, e, terminalId) == Sweep(t)
    ensures e.Added? ==> Apply(t, e, terminalId) == Register(t, e.s)
    ensures e.Removed? ==> Apply(t, e, terminalId) == Unregister(t, e.serviceId)
  {
    match e
    case Inbound(msg, now) => AcceptKeepsOk(t, msg, now, terminalId);
    case Emitted(id, _) => ProcessingIsReleasable(t, id);
    case Completed(id, _) => ProcessingIsReleasable(t, id);
    case Failed(id, _, _) => ProcessingIsReleasable(t, id);
    case Beat => SinksOfRequests(t);
    case Added(_) =>
    case Removed(_) =>
  }

  // Frames: which records and sinks a step may touch.

  /** The synchronous part of a request's lifecycle touches only that request's record and sink. */
  lemma InitializedFrame(t: Tables, x: nat, terminalId: string, other: nat)
    requires x in t.requests && x in t.sinks && t.requests[x].message.req.Some? && Live(t)
    requires other != x && other in t.requests && other in t.sinks
    ensures var t' := EnterInitialized(t, x, terminalId);
            other in t'.requests && t'.requests[other] == t.requests[other] &&
            other in t'.sinks && t'.sinks[other] == t.sinks[other]
  {
    var m := t.requests[x].message;
    var r := RouteOf(t.services, t.methodIndex, t.contextOf, m.methodName, m.req.value);
    var t1 := Stamped(t, x, terminalId);
    if r.Bound? {
      BoundRouteIsRegistered(t.services, t.methodIndex, t.contextOf, m.methodName, m.req.value);
      var t2 := Counted(Bind(t1, x, r.handle), x);
      assert t2.requests[other] == t.requests[other] && t2.sinks == t.sinks;
    }
  }

  /** Processed touches only the finished request and the head of its context's queue. */
  lemma ProcessedFrame(t: Tables, x: nat, terminalId: string, other: nat)
    requires Releasable(t, x) && other != x && other in t.requests && other in t.sinks
    requires var rt := t.runtimes[t.requests[x].binding.value];
             rt.pending != [] ==> other != rt.pending[0]
    ensures var t' := EnterProcessed(t, x, terminalId);
            other in t'.requests && t'.requests[other] == t.requests[other] &&
            other in t'.sinks && t'.sinks[other] == t.sinks[other]
  {
  }

  /** `id`'s record and sink are the same in `t'` as in `t`. */
  ghost predicate Untouched(t: Tables, t': Tables, id: nat) {
    id in t.requests && id in t.sinks &&
    id in t'.requests && t'.requests[id] == t.requests[id] &&
    id in t'.sinks && t'.sinks[id] == t.sinks[id]
  }

  /** Another request's Processed step never disturbs a finalized one. */
  lemma ProcessedSparesFinalized(t: Tables, x: nat, terminalId: string, id: nat)
    requires Ok(t) && x in t.requests && t.requests[x].phase == Processing
    requires id in t.requests && t.requests[id].phase == Finalizing
    ensures Releasable(t, x)
    ensures var t' := EnterProcessed(t, x, terminalId);
            id in t'.requests && t'.requests[id] == t.requests[id] &&
            id in t'.sinks && t'.sinks[id] == t.sinks[id]
  {
    SinksOfRequests(t);
    ProcessingIsReleasable(t, x);
    ProcessedFrame(t, x, terminalId, id);
  }

  /** A new request never disturbs a finalized one. */
  lemma InboundSparesFinalized(t: Tables, e: Event, terminalId: string, id: nat)
    requires Ok(t) && Enabled(t, e) && id in t.requests && t.requests[id].phase == Finalizing
    requires e.Inbound?
    ensures Untouched(t, Apply(t, e, terminalId), id)
  {
    SinksOfRequests(t);
    AcceptKeepsOk(t, e.msg, e.now, terminalId);
    if IsRequest(e.msg) {
      InitializedFrame(Received(t, e.msg, e.now), t.nextRequest, terminalId, id);
    }
  }

  /** Completion of another request's handler never disturbs a finalized one. */
  lemma CompleteSparesFinalized(t: Tables, e: Event, terminalId: string, id: nat)
    requires Ok(t) && Enabled(t, e) && id in t.requests && t.requests[id].phase == Finalizing
    requires e.Completed?
    ensures Untouched(t, Apply(t, e, terminalId), id)
  {
    SinksOfRequests(t);
    ProcessingIsReleasable(t, e.id);
    ClockedKeepsOk(t, e.now);
    ProcessedSparesFinalized(Clocked(t, e.now), e.id, terminalId, id);
  }

  /** Failure of another request's handler never disturbs a finalized one. */
  lemma FailSparesFinalized(t: Tables, e: Event, terminalId: string, id: nat)
    requires Ok(t) && Enabled(t, e) && id in t.requests && t.requests[id].phase == Finalizing
    requires e.Failed?
    ensures Untouched(t, Apply(t, e, terminalId), id)
  {
    SinksOfRequests(t);
    ClockedKeepsOk(t, e.now);
    ProcessingIsReleasable(t, e.id);
    var t1 := Respond(Clocked(t, e.now), e.id, FailureResponse(e.error));
    RespondKeepsOk(Clocked(t, e.now), e.id, FailureResponse(e.error));
    assert t1.requests == t.requests && t1.sinks[id] == t.sinks[id];
    ProcessedSparesFinalized(t1, e.id, terminalId, id);
  }

  /** The heartbeat skips a finalized request. */
  lemma BeatSparesFinalized(t: Tables, e: Event, terminalId: string, id: nat)
    requires Ok(t) && Enabled(t, e) && id in t.requests && t.requests[id].phase == Finalizing
    requires e.Beat?
    ensures Untouched(t, Apply(t, e, terminalId), id)
  {
    SinksOfRequests(t);
  }

  /**
   * Finalizing happens once: no event changes the record or the sink of a
   * request that is already finalized, so its sink stays closed and it is
   * never finalized again (`Observations.EveryEventObservedOnce` counts the
   * duration observations).
   */
  lemma FinalizedIsTerminal(t: Tables, e: Event, terminalId: string, id: nat)
    requires Ok(t) && Enabled(t, e) && id in t.requests && t.requests[id].phase == Finalizing
    ensures var t' := Apply(t, e, terminalId);
            id in t'.requests && t'.requests[id] == t.requests[id] &&
            id in t'.sinks && t'.sinks[id] == t.sinks[id] && t'.sinks[id].closed
  {
    SinksOfRequests(t);
    assert t.sinks[id].closed;
    if e.Inbound? {
      InboundSparesFinalized(t, e, terminalId, id);
    } else if e.Completed? {
      CompleteSparesFinalized(t, e, terminalId, id);
    } else if e.Failed? {
      FailSparesFinalized(t, e, terminalId, id);
    } else if e.Beat? {
      BeatSparesFinalized(t, e, terminalId, id);
    } else {
      assert Untouched(t, Apply(t, e, terminalId), id);
    }
  }
}
