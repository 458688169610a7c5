/**
 * The invariants that tie the server's tables together (registry handles,
 * runtime contexts, request records and sinks) and how each kind of update
 * performed by the request lifecycle keeps them.
 */
module Links {
  import opened Wrappers
  import opened Messages
  import opened RuntimeContext
  import opened Requests

  /**
   * Every runtime handle is below the allocation counter, every registered
   * key maps to a live context, and no two keys share a context.
   */
  ghost predicate HandlesOk(contextOf: map<string, nat>, runtimes: map<nat, Runtime>, nextHandle: nat) {
    (forall h :: h in runtimes ==> h < nextHandle) &&
    (forall k :: k in contextOf ==> contextOf[k] in runtimes) &&
    (forall k1, k2 :: k1 in contextOf && k2 in contextOf && k1 != k2 ==> contextOf[k1] != contextOf[k2])
  }

  ghost predicate RuntimesOk(runtimes: map<nat, Runtime>) {
    forall h :: h in runtimes ==> Inv(runtimes[h])
  }

  /** What a context's queue and set hold are requests in that phase, bound to that context. */
  ghost predicate QueuesLinked(runtimes: map<nat, Runtime>, requests: map<nat, Request>) {
    (forall h, i :: h in runtimes && 0 <= i < |runtimes[h].pending| ==>
       runtimes[h].pending[i] in requests &&
       requests[runtimes[h].pending[i]].phase == Pending &&
       requests[runtimes[h].pending[i]].binding == Some(h)) &&
    (forall h, id :: h in runtimes && id in runtimes[h].processing ==>
       id in requests && requests[id].phase == Processing && requests[id].binding == Some(h))
  }

  /** A bound request's context is live; a Pending one is in its queue, a Processing one in its set. */
  ghost predicate RequestsPlaced(runtimes: map<nat, Runtime>, requests: map<nat, Request>) {
    forall id :: id in requests ==>
      (requests[id].phase in {Routed, Pending, Processing, Processed} ==>
         requests[id].binding.Some? && requests[id].binding.value in runtimes) &&
      (requests[id].phase == Pending ==>
         requests[id].binding.Some? && requests[id].binding.value in runtimes &&
         id in runtimes[requests[id].binding.value].pending) &&
      (requests[id].phase == Processing ==>
         requests[id].binding.Some? && requests[id].binding.value in runtimes &&
         id in runtimes[requests[id].binding.value].processing)
  }

  ghost predicate RequestsOk(requests: map<nat, Request>, nextRequest: nat, clock: nat) {
    forall id :: id in requests ==> id < nextRequest && RequestOk(requests[id], clock)
  }

  /** Every request has one sink; it is closed exactly when the request is finalized. */
  ghost predicate SinksMatch(requests: map<nat, Request>, sinks: map<nat, Sink>) {
    requests.Keys == sinks.Keys &&
    forall id :: id in sinks ==> (sinks[id].closed <==> requests[id].phase == Finalizing) && Tracks(sinks[id])
  }

  /** The requests a heartbeat reaches: queued on one of the given contexts. */
  predicate Beats(q: Request, handles: set<nat>) {
    q.phase == Pending && q.binding.Some? && q.binding.value in handles
  }

  /** A second update at the same key replaces the first. */
  lemma Overwrite<K, V>(m: map<K, V>, k: K, a: V, b: V)
    ensures m[k := a][k := b] == m[k := b]
  {
  }

  /** Updates at two different keys commute. */
  lemma Swap<K, V>(m: map<K, V>, j: K, a: V, k: K, b: V)
    requires j != k
    ensures m[j := a][k := b] == m[k := b][j := a]
  {
  }

  // Frame lemmas: how each kind of update keeps the cross-links between
  // runtime contexts, request records and sinks.

  /** Changing a request that is neither queued nor processing, into one that is neither. */
  lemma RelabelKeepsLinks(runtimes: map<nat, Runtime>, requests: map<nat, Request>, id: nat, q: Request)
    requires QueuesLinked(runtimes, requests) && RequestsPlaced(runtimes, requests)
    requires id in requests && requests[id].phase !in {Pending, Processing} && q.phase !in {Pending, Processing}
    requires q.phase in {Routed, Processed} ==> q.binding.Some? && q.binding.value in runtimes
    ensures QueuesLinked(runtimes, requests[id := q]) && RequestsPlaced(runtimes, requests[id := q])
  {
  }

  /** A Routed request appended to its context's queue as Pending. */
  lemma EnqueueKeepsLinks(runtimes: map<nat, Runtime>, requests: map<nat, Request>, id: nat)
    requires QueuesLinked(runtimes, requests) && RequestsPlaced(runtimes, requests)
    requires id in requests && requests[id].phase == Routed
    requires requests[id].binding.Some? && requests[id].binding.value in runtimes
    ensures var h := requests[id].binding.value;
            QueuesLinked(runtimes[h := Enqueue(runtimes[h], id)], requests[id := requests[id].(phase := Pending)]) &&
            RequestsPlaced(runtimes[h := Enqueue(runtimes[h], id)], requests[id := requests[id].(phase := Pending)])
  {
    var h := requests[id].binding.value;
    var rts := runtimes[h := Enqueue(runtimes[h], id)];
    var reqs := requests[id := requests[id].(phase := Pending)];
    forall h', i | h' in rts && 0 <= i < |rts[h'].pending|
      ensures rts[h'].pending[i] in reqs && reqs[rts[h'].pending[i]].phase == Pending &&
              reqs[rts[h'].pending[i]].binding == Some(h')
    {
      if h' == h && i == |runtimes[h].pending| {
      } else {
        assert rts[h'].pending[i] == runtimes[h'].pending[i];
      }
    }
    forall id' | id' in reqs && reqs[id'].phase == Pending
      ensures id' in rts[reqs[id'].binding.value].pending
    {
      if id' != id {
        var j :| 0 <= j < |runtimes[requests[id'].binding.value].pending| &&
                 runtimes[requests[id'].binding.value].pending[j] == id';
        assert rts[reqs[id'].binding.value].pending[j] == id';
      } else {
        assert rts[h].pending[|runtimes[h].pending|] == id;
      }
    }
  }

  /** A Routed request taking a slot in its context as Processing. */
  lemma OccupyKeepsLinks(runtimes: map<nat, Runtime>, requests: map<nat, Request>, id: nat, q: Request)
    requires QueuesLinked(runtimes, requests) && RequestsPlaced(runtimes, requests)
    requires id in requests && requests[id].phase == Routed
    requires requests[id].binding.Some? && requests[id].binding.value in runtimes
    requires q.phase == Processing && q.binding == requests[id].binding
    ensures var h := requests[id].binding.value;
            QueuesLinked(runtimes[h := Occupy(runtimes[h], id)], requests[id := q]) &&
            RequestsPlaced(runtimes[h := Occupy(runtimes[h], id)], requests[id := q])
  {
    var h := requests[id].binding.value;
    var rts := runtimes[h := Occupy(runtimes[h], id)];
    forall h', i | h' in rts && 0 <= i < |rts[h'].pending|
      ensures rts[h'].pending[i] != id
    {
      assert rts[h'].pending[i] == runtimes[h'].pending[i];
    }
  }

  /** A processing request leaving its context, whose queue is empty, as Processed. */
  lemma ReleaseIdleKeepsLinks(runtimes: map<nat, Runtime>, requests: map<nat, Request>, id: nat, done: Request)
    requires QueuesLinked(runtimes, requests) && RequestsPlaced(runtimes, requests) && RuntimesOk(runtimes)
    requires id in requests && requests[id].phase == Processing
    requires requests[id].binding.Some? && requests[id].binding.value in runtimes
    requires runtimes[requests[id].binding.value].pending == []
    requires done.phase == Processed && done.binding == requests[id].binding
    ensures var h := requests[id].binding.value;
            QueuesLinked(runtimes[h := Release(runtimes[h], id)], requests[id := done]) &&
            RequestsPlaced(runtimes[h := Release(runtimes[h], id)], requests[id := done])
  {
    var h := requests[id].binding.value;
    var rts := runtimes[h := Release(runtimes[h], id)];
    forall h', i | h' in rts && 0 <= i < |rts[h'].pending|
      ensures rts[h'].pending[i] != id
    {
      assert rts[h'].pending[i] == runtimes[h'].pending[i];
    }
  }

  /**
   * A processing request leaving its context as Processed, and the head of
   * that context's queue taking the freed slot as Processing.
   */
  lemma ReleasePromotingKeepsLinks(runtimes: map<nat, Runtime>, requests: map<nat, Request>, id: nat,
                                   done: Request, started: Request)
    requires QueuesLinked(runtimes, requests) && RequestsPlaced(runtimes, requests) && RuntimesOk(runtimes)
    requires id in requests && requests[id].phase == Processing
    requires requests[id].binding.Some? && requests[id].binding.value in runtimes
    requires runtimes[requests[id].binding.value].pending != []
    requires done.phase == Processed && done.binding == requests[id].binding
    requires started.phase == Processing && started.binding == requests[id].binding
    ensures var h := requests[id].binding.value;
            var rt := runtimes[h];
            QueuesLinked(runtimes[h := Release(rt, id)], requests[id := done][rt.pending[0] := started]) &&
            RequestsPlaced(runtimes[h := Release(rt, id)], requests[id := done][rt.pending[0] := started])
  {
    var h := requests[id].binding.value;
    var rt := runtimes[h];
    var rts := runtimes[h := Release(rt, id)];
    assert Inv(rt);
    var head := rt.pending[0];
    var reqs := requests[id := done][head := started];
    assert head != id;
    forall h', i | h' in rts && 0 <= i < |rts[h'].pending|
      ensures rts[h'].pending[i] in reqs && reqs[rts[h'].pending[i]].phase == Pending &&
              reqs[rts[h'].pending[i]].binding == Some(h')
    {
      if h' == h {
        assert rts[h'].pending[i] == rt.pending[i + 1];
        assert rt.pending[i + 1] != head;
        assert rt.pending[i + 1] != id;
      } else {
        assert rts[h'].pending[i] == runtimes[h'].pending[i];
        assert runtimes[h'].pending[i] != head;
      }
    }
    forall id' | id' in reqs && reqs[id'].phase == Pending
      ensures id' in rts[reqs[id'].binding.value].pending
    {
      var h2 := requests[id'].binding.value;
      var j :| 0 <= j < |runtimes[h2].pending| && runtimes[h2].pending[j] == id';
      if h2 == h {
        assert j != 0;
        assert rts[h].pending[j - 1] == id';
      } else {
        assert rts[h2].pending[j] == id';
      }
    }
  }

  /** Replacing one request record by a well-formed one. */
  lemma UpdateKeepsRequestsOk(requests: map<nat, Request>, nextRequest: nat, clock: nat, id: nat, q: Request)
    requires RequestsOk(requests, nextRequest, clock) && id < nextRequest && RequestOk(q, clock)
    ensures RequestsOk(requests[id := q], nextRequest, clock)
  {
  }

  /** Every record stays well formed when the clock moves forward. */
  lemma ClockKeepsRequestsOk(requests: map<nat, Request>, nextRequest: nat, clock: nat, now: nat)
    requires RequestsOk(requests, nextRequest, clock) && clock <= now
    ensures RequestsOk(requests, nextRequest, now)
  {
  }

  /** Replacing one request record and its sink, keeping "closed iff finalized". */
  lemma UpdateKeepsSinks(requests: map<nat, Request>, sinks: map<nat, Sink>, id: nat, q: Request, s: Sink)
    requires SinksMatch(requests, sinks) && id in requests
    requires (s.closed <==> q.phase == Finalizing) && Tracks(s)
    ensures SinksMatch(requests[id := q], sinks[id := s])
  {
  }

  /** Changing the phase of a request whose sink stays open. */
  lemma RelabelKeepsSinks(requests: map<nat, Request>, sinks: map<nat, Sink>, id: nat, q: Request)
    requires SinksMatch(requests, sinks) && id in requests
    requires requests[id].phase != Finalizing && q.phase != Finalizing
    ensures SinksMatch(requests[id := q], sinks)
  {
    assert sinks == sinks[id := sinks[id]];
    UpdateKeepsSinks(requests, sinks, id, q, sinks[id]);
  }

  /** Replacing one runtime context by a well-formed one with the same queue and set. */
  lemma RecountKeepsLinks(runtimes: map<nat, Runtime>, requests: map<nat, Request>, h: nat, rt: Runtime)
    requires QueuesLinked(runtimes, requests) && RequestsPlaced(runtimes, requests) && RuntimesOk(runtimes)
    requires h in runtimes && rt.pending == runtimes[h].pending && rt.processing == runtimes[h].processing && Inv(rt)
    ensures QueuesLinked(runtimes[h := rt], requests) && RequestsPlaced(runtimes[h := rt], requests)
    ensures RuntimesOk(runtimes[h := rt])
  {
  }

  /** Replacing one runtime context keeps the handle bookkeeping. */
  lemma ReplaceKeepsHandles(contextOf: map<string, nat>, runtimes: map<nat, Runtime>, nextHandle: nat, h: nat, rt: Runtime)
    requires HandlesOk(contextOf, runtimes, nextHandle) && h in runtimes
    ensures HandlesOk(contextOf, runtimes[h := rt], nextHandle)
  {
  }

  /** Replacing one runtime context by a well-formed one keeps the handles and every context's invariant. */
  lemma ReplaceKeepsContexts(contextOf: map<string, nat>, runtimes: map<nat, Runtime>, nextHandle: nat, h: nat, rt: Runtime)
    requires HandlesOk(contextOf, runtimes, nextHandle) && RuntimesOk(runtimes) && h in runtimes && Inv(rt)
    ensures HandlesOk(contextOf, runtimes[h := rt], nextHandle) && RuntimesOk(runtimes[h := rt])
  {
  }

  /** A new request record, not yet routed, under a fresh id. */
  lemma InsertKeepsLinks(runtimes: map<nat, Runtime>, requests: map<nat, Request>, n: nat, q: Request)
    requires QueuesLinked(runtimes, requests) && RequestsPlaced(runtimes, requests)
    requires n !in requests && q.phase == Initialized
    ensures QueuesLinked(runtimes, requests[n := q]) && RequestsPlaced(runtimes, requests[n := q])
  {
  }

  /** A new record and sink under the next request id. */
  lemma InsertKeepsRecords(requests: map<nat, Request>, nextRequest: nat, clock: nat, sinks: map<nat, Sink>,
                           q: Request, s: Sink)
    requires RequestsOk(requests, nextRequest, clock) && SinksMatch(requests, sinks)
    requires RequestOk(q, clock) && (s.closed <==> q.phase == Finalizing) && Tracks(s)
    ensures nextRequest !in requests && nextRequest !in sinks
    ensures RequestsOk(requests[nextRequest := q], nextRequest + 1, clock)
    ensures SinksMatch(requests[nextRequest := q], sinks[nextRequest := s])
  {
  }

  /** A fresh runtime context under an unused handle. */
  lemma InstallKeepsLinks(runtimes: map<nat, Runtime>, requests: map<nat, Request>, h: nat, rt: Runtime)
    requires QueuesLinked(runtimes, requests) && RequestsPlaced(runtimes, requests)
    requires h !in runtimes && rt.pending == [] && rt.processing == {}
    ensures QueuesLinked(runtimes[h := rt], requests) && RequestsPlaced(runtimes[h := rt], requests)
  {
  }

  /** Pushing a fragment into one sink keeps "closed iff finalized" and the response tracker. */
  lemma PushKeepsSinks(requests: map<nat, Request>, sinks: map<nat, Sink>, id: nat, f: Fragment)
    requires SinksMatch(requests, sinks) && id in sinks
    ensures SinksMatch(requests, sinks[id := Push(sinks[id], f)])
  {
    PushKeepsTracking(sinks[id], f);
  }

  /**
   * Two record updates at once (a request leaving processing and the head
   * of its queue entering it), both well formed and neither finalized.
   */
  lemma PromoteKeepsRecords(requests: map<nat, Request>, nextRequest: nat, clock: nat, sinks: map<nat, Sink>,
                            id: nat, done: Request, head: nat, started: Request)
    requires RequestsOk(requests, nextRequest, clock) && SinksMatch(requests, sinks)
    requires id in requests && head in requests && id != head
    requires requests[id].phase != Finalizing && requests[head].phase != Finalizing
    requires done.phase != Finalizing && started.phase != Finalizing
    requires RequestOk(done, clock) && RequestOk(started, clock)
    ensures RequestsOk(requests[id := done][head := started], nextRequest, clock)
    ensures SinksMatch(requests[id := done][head := started], sinks)
  {
    UpdateKeepsRequestsOk(requests, nextRequest, clock, id, done);
    RelabelKeepsSinks(requests, sinks, id, done);
    UpdateKeepsRequestsOk(requests[id := done], nextRequest, clock, head, started);
    RelabelKeepsSinks(requests[id := done], sinks, head, started);
  }
}
