# TerminalServer request dispatcher, in Dafny

This project models the request dispatcher `TerminalServer` of the Yuan
terminal protocol library (`libraries/protocol/src/server.ts`) and proves
properties of it. The dispatcher is an in-process admission and scheduling
engine with four parts:

- **Service registry.** Three maps: service id → descriptor, method → candidate ids, service id → runtime context. `addService` and `removeService` change them.
- **Runtime contexts.** Each runtime context (`IServiceContext`) has a FIFO `pending` queue, a `processing` set, a concurrency limit, a capacity limit and two counters.
- **Request lifecycle.** Each request context (`IRequestContext`) moves through Initialized → Routed → Pending → Processing → Processed → Finalizing. It carries five timestamps and an output sink.
- **Heartbeat.** An empty fragment goes to every request waiting in a queue.

## How the model is built

- `Server.TerminalServer` is a class with one field per table of the source. Its methods update those fields in place, one method per rxjs subscriber:
  - `OnInitialized`, `OnRouted`, `OnPending`, `OnProcessing`, `OnProcessed`, `OnFinalizing`;
  - the candidate loop `ScanCandidates`;
  - the heartbeat's nested `forEach` (`BeatContexts`, `BeatQueue`).

  A Subject's `next` runs its subscriber synchronously, so one call of `Receive` runs Initialized → Routed → Pending → Processing.
- The service handler runs outside the model. Its streamed fragments, its completion, and its failure (a thrown error or a `timeout`) arrive as calls of `HandlerEmit`, `HandlerCompleted` and `HandlerFailed`. The heartbeat interval is a call of `HeartbeatTick`.
- Every state-changing method is proved to perform one value-level step on `Snapshot()`. `ScanCandidates` and `FindTarget` change nothing: they are proved against `Services.Accepting` and `Services.RouteOf`. The steps are defined in `Lifecycle` on the datatype `Tables`, and `Events.Apply` gives the effect of each outside event.
- The server invariant is `Lifecycle.Ok`, exposed as `Valid()`. Every event keeps it (`Events.ApplyKeepsOk`). It says:
  - handles are allocated fresh and no two keys share a context;
  - every context is within its limits, and a request waits only while every slot is busy;
  - queues and processing sets hold exactly the Pending and Processing requests bound to them;
  - timestamps are ordered and not ahead of the clock;
  - every request has one sink, and the sink is closed exactly when the request is finalized.
- `Outcomes` states what each event decides, in the source's terms: the 400/500/503 refusals, admission, FIFO promotion, the 500 on failure, the 520 default code, the heartbeat's reach, and the registry calls.
- `Observations` counts the request-duration histogram: every event records exactly one observation for each request it finalizes, and none for any other (`Observations.EveryEventObservedOnce`).
- Runtime contexts are referred to by a handle (`contextOf` maps a key to a handle, `runtimes` a handle to a context). This keeps the source's aliasing. A request holds a reference to its context object. Registering the same key again installs a new context, and requests bound to the old one stay bound to it. The old context is no longer listed in the registry, so its queued requests still start when its running requests finish, but they get no heartbeat (`Outcomes.UnlistedQueueHearsNothing`). `removeService` leaves the context in place, so its queue keeps its heartbeat.
- Limits are `Option<nat>`. `None` is the source's `Infinity`, which `options.x || Infinity` also produces for 0.
- Timestamps are `Option<nat>`. `None` is the source's `NaN`.

## Model

| member | source | states |
|---|---|---|
| Services.EffectiveLimit | libraries/protocol/src/server.ts:84-85 | An absent or zero `concurrent` / `max_pending_requests` means no limit. Any other value is the limit itself, and it is positive. |
| Services.ServiceKey | libraries/protocol/src/server.ts:71 | Defines a descriptor's key, `service_id || method`. `ConsistentRouting` and `RegisterKeepsConsistent` use it. |
| Services.Rejection | libraries/protocol/src/server.ts:163-193 | Defines the four routing refusals: 400 Method Not Found, 400 Ambiguous Service, 400 No Matching Service and 500 Service Not Found. `RouteOf`'s row and `Outcomes.AcceptOutcome` use it. |
| Services.RouteOf | libraries/protocol/src/server.ts:159-194 | Reference definition of routing. An unknown method is refused with 400 "Method Not Found". Two or more accepting candidates give 400 "Ambiguous Service" and none gives 400 "No Matching Service". A single acceptor is bound to the context listed under its descriptor's own key, and 500 "Service Not Found" results when that key has no context. `AmbiguousIffTwoAccept` and `ConsistentRouting` prove what it means. |
| Services.AcceptingGrows | libraries/protocol/src/server.ts:169-179 | Looking at one more candidate id adds it to the acceptors exactly when it has a descriptor whose validator accepts the payload. Ids without a descriptor are skipped. |
| Services.TwoAcceptors | libraries/protocol/src/server.ts:172-177 | Two different accepting candidates make the acceptor set larger than one, which is the ambiguity condition. |
| Services.AmbiguousIffTwoAccept | libraries/protocol/src/server.ts:162-180 | Routing answers "Ambiguous Service" if and only if the method is known and two different candidates accept the payload. |
| Services.ConsistentRouting | libraries/protocol/src/server.ts:162-196 | When every descriptor sits under its own key and every key has a context, the 500 "Service Not Found" never fires. A request is then bound exactly when one candidate accepts it, and to that candidate's context. |
| Services.RemovedCandidateIgnored | libraries/protocol/src/server.ts:169-171 | A candidate id whose descriptor is gone does not change the routing result. |
| Services.BoundRouteIsRegistered | libraries/protocol/src/server.ts:188-195 | A bound route names a registered key and the context that key maps to. |
| Services.EmptiedMethodHasNoMatch | libraries/protocol/src/server.ts:162-185 | A method whose candidates were all removed is still known, so it yields "No Matching Service" rather than "Method Not Found". |
| Messages.IsRequest | libraries/protocol/src/server.ts:113-115 | Defines the input filter. A lifecycle starts only for a message that has a method and a truthy payload (present and not the empty string), and carries neither a frame nor a response. `Server.TerminalServer.Receive` and `Outcomes.AcceptOutcome` show that everything else only moves the clock. |
| Messages.Push | libraries/protocol/src/server.ts:141-145 | Defines `output$.next` together with the subscriber that tracks the last response. An open sink appends the fragment and remembers a response's code. A completed sink ignores the fragment. `Messages.PushKeepsTracking` proves what it means. |
| Messages.FinalCode | libraries/protocol/src/server.ts:293 | Defines the observed code, `response?.code ?? 520`. `FinalCodeIsLastResponse` and `NoResponseFound` state what it means. |
| Messages.PushKeepsTracking | libraries/protocol/src/server.ts:141-145 | After every `output$.next`, the remembered `response` is the code of the last response in the sink's log. A completed sink ignores the fragment; an open one appends it. |
| Messages.FinalCodeIsLastResponse | libraries/protocol/src/server.ts:293 | The code a duration observation carries is 520 exactly when no response was logged or the last one was 520. Any logged response makes the last code defined. |
| Messages.NoResponseFound | libraries/protocol/src/server.ts:293 | A log without a response fragment has no last response code, so the default 520 applies. |
| Messages.SomeResponseFound | libraries/protocol/src/server.ts:141-145 | A log holding any response fragment has a last response code. |
| Requests.AdvanceKeepsOk | libraries/protocol/src/server.ts:21-26 | Taking a lifecycle edge and stamping the new phase's timestamp at the current clock keeps a record well formed: timestamps in transition order, none ahead of the clock, none beyond the phase reached. |
| Requests.ElapsedNonNegative | libraries/protocol/src/server.ts:287 | The duration `finalized_at - initilized_at` of a well-formed record lies between 0 and the clock. |
| RuntimeContext.FreshRuntimeInv | libraries/protocol/src/server.ts:77-89 | The context `addService` installs has an empty queue, an empty processing set and zero counters, and satisfies the context invariant. |
| RuntimeContext.FreshRuntime | libraries/protocol/src/server.ts:77-89 | Defines the context `addService` creates: empty queue and slots, zero counters, limits from `EffectiveLimit`. `FreshRuntimeInv` proves it well formed. |
| RuntimeContext.OccupyKeepsInv | libraries/protocol/src/server.ts:236 | Taking a free slot keeps the invariant and adds exactly one busy slot. |
| RuntimeContext.EnqueueKeepsInv | libraries/protocol/src/server.ts:222-224 | Appending to the queue while every slot is busy and there is room keeps the invariant. |
| RuntimeContext.Admit | libraries/protocol/src/server.ts:205-228 | Defines the Routed and Pending bookkeeping on one context: count the request, then refuse at capacity, start it in a free slot, or append it to the queue. `AdmitKeepsInv` proves what it means. |
| RuntimeContext.AdmitKeepsInv | libraries/protocol/src/server.ts:205-228 | `total_routed` grows by one for every routed request, rejected ones included. At capacity, the queue and set are unchanged. With a free slot, the request joins `processing`. Otherwise it is appended to `pending`. The queue never exceeds capacity. |
| RuntimeContext.Release | libraries/protocol/src/server.ts:269-279 | Defines the Processed bookkeeping on one context: drop the request from `processing`, count it, and move the head of the queue, if any, into `processing`. `ReleaseKeepsInv` and `ReleaseIsFifo` prove what it means. |
| RuntimeContext.ReleaseKeepsInv | libraries/protocol/src/server.ts:269-279 | The Processed bookkeeping keeps the invariant, counts one more processed request, and removes the request from `processing`. |
| RuntimeContext.ReleaseIsFifo | libraries/protocol/src/server.ts:276-278 | A release starts the head of the queue and no other request. The rest of the queue keeps its order. |
| RuntimeContext.QueuedImpliesBusy | libraries/protocol/src/server.ts:222-228 | A non-empty queue means every slot is busy: no request waits while a slot is free. |
| RuntimeContext.ConcurrencyOneScenario | libraries/protocol/src/server.ts:222-279 | With concurrency 1, requests 1, 2, 3 arrive: 1 starts and 2 and 3 queue. Releasing 1 starts 2, not 3, and releasing 2 starts 3. |
| RuntimeContext.CapacityRejects | libraries/protocol/src/server.ts:207-211 | When the queue holds `capacity` requests, the next one leaves the queue and the set unchanged. |
| Lifecycle.EnterInitialized | libraries/protocol/src/server.ts:151-197 | Defines the Initialized subscriber on the tables: stamp, count the receipt, route. A refusal is answered and finalized; otherwise the request is bound and goes on to Routed. |
| Lifecycle.EnterRouted | libraries/protocol/src/server.ts:200-214 | Defines the Routed subscriber: stamp, `total_routed++`, then 503 and finalize when the queue is full, otherwise go on to Pending. |
| Lifecycle.EnterPending | libraries/protocol/src/server.ts:217-229 | Defines the Pending subscriber: append to the queue when every slot is busy, otherwise go on to Processing. |
| Lifecycle.EnterProcessing | libraries/protocol/src/server.ts:232-236 | Defines the Processing subscriber: stamp and add the request to its context's `processing`. |
| Lifecycle.EnterProcessed | libraries/protocol/src/server.ts:264-280 | Defines the Processed subscriber in the source's order: stamp, free the slot and count, finalize, then shift the queue head into Processing. |
| Lifecycle.EnterFinalizing | libraries/protocol/src/server.ts:283-295 | Defines the Finalizing subscriber: stamp, complete the sink, and record one duration observation tagged with the last response code or 520. Nothing is recorded when the request was never initialized (the `isNaN` guard). |
| Lifecycle.Observation | libraries/protocol/src/server.ts:287-294 | Defines the one duration observation of a finalized request, skipped when a timestamp is missing (`isNaN`). `Observations.FinalizingObservedOnce` counts it. |
| Lifecycle.Accept | libraries/protocol/src/server.ts:109-148 | Defines the input subscriber: a message the filter drops only moves the clock. A request gets the next id, a fresh record and an open sink, and runs through Initialized. |
| Lifecycle.Sweep | libraries/protocol/src/server.ts:298-308 | Defines one heartbeat tick: an empty fragment to every request queued on a listed context, and no other change. |
| Lifecycle.Register | libraries/protocol/src/server.ts:70-90 | Defines `addService` on the tables: store the descriptor under `service_id || method`, add the key to its method's candidates, and list the key with a fresh context. |
| Lifecycle.Unregister | libraries/protocol/src/server.ts:92-97 | Defines `removeService`: an unknown id changes nothing. A known id loses its descriptor and its candidate entry, and its context stays. |
| Lifecycle.RespondKeepsOk | libraries/protocol/src/server.ts:141-145 | A fragment pushed to any request's sink keeps the server invariant. |
| Lifecycle.FinalizingKeepsOk | libraries/protocol/src/server.ts:283-295 | Finalizing a request keeps the invariant: it is stamped, its sink is closed, and it leaves no queue or set. |
| Lifecycle.ProcessingKeepsOk | libraries/protocol/src/server.ts:232-236 | Starting a routed request in a free slot keeps the invariant. |
| Lifecycle.PendingKeepsOk | libraries/protocol/src/server.ts:217-229 | The waiting room keeps the invariant, whether it queues the request or starts it. |
| Lifecycle.RoutedKeepsOk | libraries/protocol/src/server.ts:200-214 | The Routed step keeps the invariant, including the 503 path that finalizes without queueing. |
| Lifecycle.InitializedKeepsOk | libraries/protocol/src/server.ts:151-197 | The Initialized step keeps the invariant on every routing outcome. |
| Lifecycle.AcceptKeepsOk | libraries/protocol/src/server.ts:109-148 | An inbound message, request or not, keeps the invariant. |
| Lifecycle.ProcessingIsReleasable | libraries/protocol/src/server.ts:264-279 | A Processing request is in its context's set. The head of that context's queue is another request, Pending and not processing. |
| Lifecycle.ReleasedKeepsOk | libraries/protocol/src/server.ts:269-279 | Releasing the slot and handing it to the head of the queue keeps the invariant, and stamps the request Processed. |
| Lifecycle.ProcessedInEitherOrder | libraries/protocol/src/server.ts:264-280 | The source finalizes first and then starts the queue head. Doing it the other way round gives the same state. |
| Lifecycle.ProcessedKeepsOk | libraries/protocol/src/server.ts:264-280 | The Processed step keeps the invariant. |
| Lifecycle.SweepKeepsOk | libraries/protocol/src/server.ts:298-308 | A heartbeat tick keeps the invariant. |
| Lifecycle.RegisterKeepsOk | libraries/protocol/src/server.ts:70-90 | `addService` keeps the invariant, even when it replaces a key's context. |
| Events.Complete | libraries/protocol/src/server.ts:254-256 | Defines a handler's completion: the Processed step at the completion time. |
| Events.Fail | libraries/protocol/src/server.ts:246-256 | Defines a handler's failure or timeout: one 500 "Internal Server Error: …" response, then the Processed step. |
| Events.FailureResponse | libraries/protocol/src/server.ts:248 | Defines the fragment `catchError` returns: 500 with `Internal Server Error: ` followed by the error. `Outcomes.FailOutcome` states it is the last fragment. |
| Events.Apply | libraries/protocol/src/server.ts:107-308 | Defines the effect of each outside event: an inbound message, a handler's output, completion or failure, a heartbeat tick, `addService` and `removeService`. |
| Events.CompleteKeepsOk | libraries/protocol/src/server.ts:254-256 | A handler's completion keeps the invariant. |
| Events.FailKeepsOk | libraries/protocol/src/server.ts:246-256 | A handler's failure (one 500, then Processed) keeps the invariant. |
| Events.ApplyKeepsOk | libraries/protocol/src/server.ts:107-308 | Every event keeps the server invariant: an inbound message, a handler's output, completion or failure, a heartbeat, `addService` or `removeService`. |
| Events.LimitsAlwaysHold | libraries/protocol/src/server.ts:205-228 | After every event, each context holds at most `capacity` queued and at most `concurrency` processing requests, and a request waits only while every slot is busy. |
| Events.InitializedFrame | libraries/protocol/src/server.ts:151-197 | The synchronous part of a request's lifecycle touches no other request's record or sink. |
| Events.ProcessedFrame | libraries/protocol/src/server.ts:264-280 | The Processed step touches no record or sink besides the finished request and the head of its queue. |
| Events.FinalizedIsTerminal | libraries/protocol/src/server.ts:283-295 | Once a request is finalized, no event changes its record or its sink, and the sink stays closed, so it is never finalized again. |
| Observations.FinalizingObservedOnce | libraries/protocol/src/server.ts:283-295 | The Finalizing step of an initialized request that was not yet finalized adds exactly that request to the finalized set and exactly one duration observation to the log. |
| Observations.RoutedObservedOnce | libraries/protocol/src/server.ts:200-214 | The Routed step of an initialized request finalizes at most that request (the 503 refusal), with one observation per request it finalizes. |
| Observations.InitializedObservedOnce | libraries/protocol/src/server.ts:151-197 | The Initialized step finalizes at most its own request (a routing refusal or, through Routed, a 503), with one observation per request it finalizes. |
| Observations.AcceptFinalizesAtMostNew | libraries/protocol/src/server.ts:109-229 | An inbound message finalizes no request but the new one, and records one observation per request it finalizes. |
| Observations.AcceptPhase | libraries/protocol/src/server.ts:151-229 | A request message leaves its new request Finalizing exactly when routing or admission refuses it (`Refused`). |
| Observations.PhaseDecidesFinalized | libraries/protocol/src/server.ts:283-285 | When a step can finalize only a new id `n`, the finalized set grows by `n` exactly when `n` ends Finalizing. |
| Observations.AcceptObservedOnce | libraries/protocol/src/server.ts:109-229 | An inbound message finalizes exactly the new request when routing or admission refuses it (400, 500 or 503; `Refused`), and no request otherwise. Every already finalized request stays finalized, and one duration observation is recorded per newly finalized request. |
| Observations.ProcessedObservedOnce | libraries/protocol/src/server.ts:264-295 | The Processed step adds exactly the finished request to the finalized set and records exactly one observation for it. The queue head it starts is not finalized. |
| Observations.CompleteObservedOnce | libraries/protocol/src/server.ts:254-256 | A handler's completion finalizes its request, keeps every finalized request finalized, and records one observation for each request it finalizes. |
| Observations.FailObservedOnce | libraries/protocol/src/server.ts:246-256 | A handler's failure or timeout does the same, after its 500 response. |
| Observations.EveryEventObservedOnce | libraries/protocol/src/server.ts:283-295 | Every event keeps every finalized request finalized, and records exactly one duration observation for each request it finalizes and none otherwise. A server whose log holds one observation per finalized request keeps that balance. |
| Outcomes.AnsweredAtOnce | libraries/protocol/src/server.ts:164-165 | One response into a fresh sink followed by completion leaves exactly that response, closed, remembered as the final code. |
| Outcomes.RouteRefused | libraries/protocol/src/server.ts:162-194 | When routing fails, the request gets exactly one fragment, the routing error (400, or 500 for a missing context), and is finalized at once. No runtime context changes. One received counter and one zero-length duration are recorded. |
| Outcomes.CapacityRefused | libraries/protocol/src/server.ts:205-211 | When the chosen context's queue is full, the request is counted in `total_routed`, gets exactly one 503, and is finalized without entering the queue. |
| Outcomes.Admitted | libraries/protocol/src/server.ts:213-228 | An admitted request starts (Processing) when its context has a free slot, and is appended to the queue (Pending) otherwise. Its sink stays open and empty. |
| Outcomes.AcceptOutcome | libraries/protocol/src/server.ts:109-229 | An inbound message that is not a request changes nothing but the clock. A request gets the next id and ends refused, started or queued, as the route and the chosen context dictate on arrival. No other request is touched. |
| Outcomes.ProcessedEffect | libraries/protocol/src/server.ts:264-295 | The Processed step releases the slot to the queue head, if any, which is stamped Processing. It stamps the request Processed and Finalizing, closes its sink, and records one duration with the last response code or 520. |
| Outcomes.ProcessingWasStamped | libraries/protocol/src/server.ts:152 | A Processing request was stamped on arrival, no later than the clock. |
| Outcomes.CompleteOutcome | libraries/protocol/src/server.ts:254-280 | On completion the request is finalized with its last response code (or 520), and the earliest queued request of the same context, and no other, starts. |
| Outcomes.FailOutcome | libraries/protocol/src/server.ts:246-256 | On failure or timeout, the caller gets one more fragment, a 500, as the last one. The sink is closed, and the duration observation carries 500. |
| Outcomes.SilentCompletionIs520 | libraries/protocol/src/server.ts:293 | A handler that completes without ever sending a response is observed with code 520. |
| Outcomes.AcceptSettles | libraries/protocol/src/server.ts:109-229 | After an inbound message every request is Pending, Processing or Finalizing. |
| Outcomes.ProcessedSettles | libraries/protocol/src/server.ts:264-280 | The Processed step leaves every request Pending, Processing or Finalizing. |
| Outcomes.EveryEventSettles | libraries/protocol/src/server.ts:8-14 | Between events no request is left in a transient phase. Each one is Pending (in its queue), Processing (waiting for its handler) or Finalizing. |
| Outcomes.QueuedHearsBeat | libraries/protocol/src/server.ts:298-308 | Every request in the queue of a listed context is Pending and gets exactly one empty fragment per tick. Its sink stays open. |
| Outcomes.OnlyQueuedHearBeats | libraries/protocol/src/server.ts:302-305 | A tick changes a request's sink if and only if the request is Pending in the queue of a listed context. Processing and finalized requests hear nothing. |
| Outcomes.UnlistedQueueHearsNothing | libraries/protocol/src/server.ts:302-305 | A context that is no longer listed, because its key was registered again, still holds its queue, and the requests in it hear no heartbeat. |
| Outcomes.RegisterFrame | libraries/protocol/src/server.ts:70-90 | `addService` stores the descriptor under its key, adds the key to its method's candidate set, and lists the key. Every other descriptor, candidate set and listed key keeps its entry, and each key set grows by exactly the new name. |
| Outcomes.RegisterKeepsConsistent | libraries/protocol/src/server.ts:70-90 | After `addService`, every stored descriptor still sits under its own key and that key has a context. |
| Outcomes.RegisterOutcome | libraries/protocol/src/server.ts:70-90 | `addService` stores the descriptor under `service_id \|\| method`, adds it to its method's candidates, and gives the key a fresh empty context. Every other descriptor, candidate set, listed key, context and request is untouched, and so are the clock and the metrics. A context the key had before is no longer listed. |
| Outcomes.RegisteredServiceRoutes | libraries/protocol/src/server.ts:70-90 | A newly registered service that alone accepts a payload is where that payload is routed, on its new context. |
| Outcomes.UnregisterOutcome | libraries/protocol/src/server.ts:92-97 | `removeService` of an unknown id changes nothing. A known id loses exactly its descriptor, and exactly its entry in its method's candidate set (the index is untouched when the method has no entry). The method key stays, and so do the contexts, runtimes, requests, sinks, metrics, clock and both id counters. The registry stays consistent. |
| Outcomes.RemovedServiceNotRouted | libraries/protocol/src/server.ts:92-97 | In a consistent registry, which every event keeps (`Outcomes.EveryEventKeepsConsistent`) and an empty server starts with, after `removeService(k)` no payload of any method is routed to `k`. |
| Outcomes.EveryEventKeepsConsistent | libraries/protocol/src/server.ts:70-97 | Every enabled event keeps each descriptor under its own key (`service_id || method`) and each key with a context, so `Services.ConsistentRouting` and `Outcomes.RemovedServiceNotRouted` apply to every reachable server. |
| Outcomes.ApplyKeepsRegistry | libraries/protocol/src/server.ts:107-308 | Inbound messages, handler fragments, completions, failures and heartbeats leave the descriptors and their contexts untouched. |
| Outcomes.AcceptKeepsRegistry | libraries/protocol/src/server.ts:109-229 | An inbound message leaves the descriptors and their contexts untouched. |
| Outcomes.InitializedKeepsRegistry | libraries/protocol/src/server.ts:151-197 | The Initialized step only reads the registry. |
| Outcomes.RoutedKeepsRegistry | libraries/protocol/src/server.ts:200-214 | The Routed step only reads the registry. |
| Outcomes.ProcessedKeepsRegistry | libraries/protocol/src/server.ts:264-280 | The Processed step only reads the registry. |
| Server.TerminalServer.constructor | libraries/protocol/src/server.ts:56-68 | A new server has empty tables and satisfies the invariant. |
| Server.TerminalServer.AddService | libraries/protocol/src/server.ts:70-90 | Keeps the invariant and performs `Register` in place. |
| Server.TerminalServer.Install | libraries/protocol/src/server.ts:70-90 | The three map updates of `addService`, in the source's order, perform `Register` in place. |
| Server.TerminalServer.RemoveService | libraries/protocol/src/server.ts:92-97 | Keeps the invariant and performs `Unregister` in place. |
| Server.TerminalServer.ScanCandidates | libraries/protocol/src/server.ts:168-180 | The loop reports ambiguity if and only if more than one candidate with a descriptor accepts the payload. Otherwise it returns the single acceptor, or none when there is none. |
| Server.TerminalServer.FindTarget | libraries/protocol/src/server.ts:159-194 | The routing the Initialized subscriber performs agrees with the reference definition `RouteOf` on every input. |
| Server.TerminalServer.Emit | libraries/protocol/src/server.ts:141-145 | `output$.next`, with the subscriber that remembers the last response, is the `Respond` step. |
| Server.TerminalServer.OnFinalizing | libraries/protocol/src/server.ts:283-295 | Performs the Finalizing step in place. |
| Server.TerminalServer.OnProcessing | libraries/protocol/src/server.ts:232-236 | Performs the Processing step in place. |
| Server.TerminalServer.OnPending | libraries/protocol/src/server.ts:217-229 | Performs the Pending step in place. |
| Server.TerminalServer.OnRouted | libraries/protocol/src/server.ts:200-214 | Performs the Routed step in place. |
| Server.TerminalServer.OnInitialized | libraries/protocol/src/server.ts:151-197 | Performs the Initialized step in place. |
| Server.TerminalServer.OnProcessed | libraries/protocol/src/server.ts:264-280 | Performs the Processed step in place, in the source's order. |
| Server.TerminalServer.OpenRequest | libraries/protocol/src/server.ts:117-147 | A request message gets the next id, a fresh record and an open sink, and runs its synchronous lifecycle. |
| Server.TerminalServer.Receive | libraries/protocol/src/server.ts:109-148 | Keeps the invariant and performs exactly the inbound-message event. It returns the new request's id for a request and nothing otherwise. |
| Server.TerminalServer.HandlerEmit | libraries/protocol/src/server.ts:250-253 | Keeps the invariant and performs the handler-output event. |
| Server.TerminalServer.HandlerCompleted | libraries/protocol/src/server.ts:254-256 | Keeps the invariant and performs the completion event. |
| Server.TerminalServer.HandlerFailed | libraries/protocol/src/server.ts:246-249 | Keeps the invariant and performs the failure event: one 500, then Processed. |
| Server.TerminalServer.BeatQueue | libraries/protocol/src/server.ts:303-305 | The inner loop gives each request of one queue exactly one empty fragment. |
| Server.TerminalServer.BeatContexts | libraries/protocol/src/server.ts:302-306 | The outer loop over the listed contexts leaves the sinks exactly as the tick `Sweep` defines. |
| Server.TerminalServer.HeartbeatTick | libraries/protocol/src/server.ts:298-308 | Keeps the invariant and performs exactly the heartbeat event. |

## Left out

- The rxjs plumbing (`Subject`, `pipe`, `takeUntil(terminal.dispose$)`) is left out. Each subscriber is a method call. Disposal, which abandons in-flight requests, is not modelled.
- The forwarding subscriber that stamps `trace_id`, `method` and the reversed terminal ids on each outbound fragment (lines 119-129) is left out. A sink records only the fragments and whether it is closed.
- Running the service handler (`defer(() => handler(...))`) is left out. Its outputs, completion and failure are events. The 30 s / 10 s `timeout` is one more way to fail. The failure text is `"Internal Server Error: " + error` for an abstract error string.
- `Date.now()` is an abstract non-decreasing clock, read once per event. Within one synchronous chain, the source may read slightly later times at each step.
- Metrics: `PromRegistry` counters and histograms are an append-only sequence of metric events. Bucket boundaries and `console.info` logging are left out.
- Limits are whole numbers or absent. Negative, fractional and `NaN` option values are not modelled.
- The `throw new Error('ServiceContext Not Found')` guards (lines 203, 219, 235, 267) are not modelled as throws. The subscriber methods require the binding, and the invariant proves that it is always present.
- Liveness is left out, and the model claims none. The source's `timeout` (30 s before the first fragment, 10 s between fragments) fails only a handler that falls silent; a handler that keeps streaming is never made to finish, so a Processing request need not ever leave Processing. The model proves the safety half (`Outcomes.EveryEventSettles`, `Events.FinalizedIsTerminal`).
- A request payload is a string, as the validators see it. A falsy payload other than the empty string (`0`, `false`, `null`) counts as an absent payload; the empty string is kept, and the input filter drops it.
- Service descriptors are reduced to key, method, validator and the two options. The validator is an abstract total predicate on payloads.
