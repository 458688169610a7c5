/**
 * The per-service runtime context (`IServiceContext`): FIFO pending queue,
 * processing set, limits and counters, and the bookkeeping steps the
 * dispatcher applies to it (libraries/protocol/src/server.ts).
 */
module RuntimeContext {
  import opened Wrappers
  import opened Services

  datatype Runtime = Runtime(
    serviceId: string,
    methodName: string,
    concurrency: Limit,
    capacity: Limit,
    pending: seq<nat>,
    processing: set<nat>,
    totalRouted: nat,
    totalProcessed: nat)

  /** The context `addService` installs: empty queue and set, zero counters. */
  function FreshRuntime(s: Service): Runtime {
    Runtime(ServiceKey(s), s.methodName, EffectiveLimit(s.concurrent), EffectiveLimit(s.maxPendingRequests),
            [], {}, 0, 0)
  }

  /** `n < limit`, with no limit always true. */
  predicate Below(n: nat, l: Limit) {
    l.None? || n < l.value
  }

  /** `n <= limit`. */
  predicate Within(n: nat, l: Limit) {
    l.None? || n <= l.value
  }

  /** Admission test: the request is rejected when `pending.length >= capacity`. */
  predicate HasRoom(rt: Runtime) {
    Below(|rt.pending|, rt.capacity)
  }

  /** Slot test: the request queues when `processing.size >= concurrency`. */
  predicate HasSlot(rt: Runtime) {
    Below(|rt.processing|, rt.concurrency)
  }

  predicate NoDup(s: seq<nat>) {
    forall i, j :: 0 <= i < j < |s| ==> s[i] != s[j]
  }

  /**
   * The runtime invariant: both limits hold, a request waits only while
   * every slot is taken, and no request is queued twice or queued while
   * processing.
   */
  ghost predicate Inv(rt: Runtime) {
    (rt.concurrency.None? || rt.concurrency.value > 0) &&
    (rt.capacity.None? || rt.capacity.value > 0) &&
    Within(|rt.processing|, rt.concurrency) &&
    Within(|rt.pending|, rt.capacity) &&
    (rt.pending != [] ==> rt.concurrency.Some? && |rt.processing| == rt.concurrency.value) &&
    NoDup(rt.pending) &&
    (forall i :: 0 <= i < |rt.pending| ==> rt.pending[i] !in rt.processing)
  }

  /** `total_routed++`. */
  function CountRouted(rt: Runtime): Runtime {
    rt.(totalRouted := rt.totalRouted + 1)
  }

  /** `pending.push(id)`. */
  function Enqueue(rt: Runtime, id: nat): Runtime {
    rt.(pending := rt.pending + [id])
  }

  /** `processing.add(id)`. */
  function Occupy(rt: Runtime, id: nat): Runtime {
    rt.(processing := rt.processing + {id})
  }

  /** The Routed and Pending steps together: count, then reject, start or queue. */
  function Admit(rt: Runtime, id: nat): Runtime {
    var counted := CountRouted(rt);
    if !HasRoom(counted) then counted
    else if HasSlot(counted) then Occupy(counted, id)
    else Enqueue(counted, id)
  }

  /**
   * The Processed step: `processing.delete(id)`, `total_processed++`, then
   * `pending.shift()` into `processing` if anything is queued.
   */
  function Release(rt: Runtime, id: nat): Runtime {
    var freed := rt.(processing := rt.processing - {id}, totalProcessed := rt.totalProcessed + 1);
    if freed.pending == [] then freed
    else freed.(pending := freed.pending[1..], processing := freed.processing + {freed.pending[0]})
  }

  lemma FreshRuntimeInv(s: Service)
    ensures Inv(FreshRuntime(s))
    ensures FreshRuntime(s).pending == [] && FreshRuntime(s).processing == {}
    ensures FreshRuntime(s).totalRouted == 0 && FreshRuntime(s).totalProcessed == 0
  {
  }

  lemma {:induction false} CardAddFresh(s: set<nat>, x: nat)
    requires x !in s
    ensures |s + {x}| == |s| + 1
  {
    assert s + {x} - {x} == s;
  }

  /** Taking a free slot keeps the invariant and adds exactly one busy slot. */
  lemma OccupyKeepsInv(rt: Runtime, id: nat)
    requires Inv(rt) && HasSlot(rt) && id !in rt.processing
    ensures Inv(Occupy(rt, id))
    ensures |Occupy(rt, id).processing| == |rt.processing| + 1
  {
    CardAddFresh(rt.processing, id);
  }

  /** Queueing behind busy slots, while there is room, keeps the invariant. */
  lemma EnqueueKeepsInv(rt: Runtime, id: nat)
    requires Inv(rt) && HasRoom(rt) && !HasSlot(rt)
    requires id !in rt.processing && forall i :: 0 <= i < |rt.pending| ==> rt.pending[i] != id
    ensures Inv(Enqueue(rt, id))
  {
  }

  /**
   * Admission keeps the invariant; it counts every routed request; a request
   * is turned away exactly when the queue is at capacity, enters processing
   * exactly when a slot is free, and is otherwise appended to the queue.
   */
  lemma AdmitKeepsInv(rt: Runtime, id: nat)
    requires Inv(rt)
    requires id !in rt.processing && forall i :: 0 <= i < |rt.pending| ==> rt.pending[i] != id
    ensures Inv(Admit(rt, id))
    ensures Admit(rt, id).totalRouted == rt.totalRouted + 1
    ensures !HasRoom(rt) ==> Admit(rt, id).pending == rt.pending && Admit(rt, id).processing == rt.processing
    ensures HasRoom(rt) && HasSlot(rt) ==>
              Admit(rt, id).pending == rt.pending && Admit(rt, id).processing == rt.processing + {id}
    ensures HasRoom(rt) && !HasSlot(rt) ==>
              Admit(rt, id).pending == rt.pending + [id] && Admit(rt, id).processing == rt.processing
    ensures Within(|Admit(rt, id).pending|, rt.capacity)
  {
    if HasRoom(rt) && HasSlot(rt) {
      CardAddFresh(rt.processing, id);
      assert rt.pending == [];
    }
  }

  /**
   * Releasing a processing request keeps the invariant: the slot it frees is
   * given to the head of the queue, so the number of busy slots stays at the
   * limit while anything waits.
   */
  lemma ReleaseKeepsInv(rt: Runtime, id: nat)
    requires Inv(rt) && id in rt.processing
    ensures Inv(Release(rt, id))
    ensures Release(rt, id).totalProcessed == rt.totalProcessed + 1
    ensures id !in Release(rt, id).processing
  {
    var freed := rt.processing - {id};
    assert freed + {id} == rt.processing;
    CardAddFresh(freed, id);
    if rt.pending != [] {
      var head := rt.pending[0];
      assert head !in freed;
      CardAddFresh(freed, head);
      var rest := rt.pending[1..];
      forall i | 0 <= i < |rest| ensures rest[i] !in freed + {head} {
        assert rest[i] == rt.pending[i + 1];
      }
    }
  }

  /**
   * FIFO promotion: a release starts the earliest queued request and no
   * other, and the rest of the queue keeps its order.
   */
  lemma ReleaseIsFifo(rt: Runtime, id: nat)
    requires Inv(rt) && id in rt.processing
    ensures Release(rt, id).processing - rt.processing ==
              (if rt.pending == [] then {} else {rt.pending[0]})
    ensures Release(rt, id).pending == (if rt.pending == [] then [] else rt.pending[1..])
  {
  }

  /** No request waits while a slot is free: a non-empty queue means every slot is busy. */
  lemma QueuedImpliesBusy(rt: Runtime)
    requires Inv(rt) && rt.pending != []
    ensures rt.processing != {} && !HasSlot(rt)
  {
  }

  /**
   * Concurrency 1, requests 1, 2, 3 arriving in that order: 1 starts at once,
   * 2 and 3 queue; releasing 1 starts 2 (not 3); releasing 2 starts 3.
   */
  lemma ConcurrencyOneScenario(s: Service)
    requires EffectiveLimit(s.concurrent) == Some(1) && s.maxPendingRequests.None?
    ensures var r0 := Admit(Admit(Admit(FreshRuntime(s), 1), 2), 3);
            r0.processing == {1} && r0.pending == [2, 3] &&
            Release(r0, 1).processing == {2} && Release(r0, 1).pending == [3] &&
            Release(Release(r0, 1), 2).processing == {3} && Release(Release(r0, 1), 2).pending == []
  {
    var r1 := Admit(FreshRuntime(s), 1);
    assert r1.processing == {1} && |r1.processing| == 1;
    var r2 := Admit(r1, 2);
    assert r2.pending == [2];
    var r3 := Admit(r2, 3);
    assert r3.pending == [2, 3];
    assert Release(r3, 1).processing == {2};
    assert |Release(r3, 1).processing| == 1;
    assert Release(r3, 1).pending == [3];
    assert Release(Release(r3, 1), 2).processing == {3};
  }

  /**
   * Capacity N: while nothing completes, once N requests are queued the next
   * one is rejected and the queue does not grow.
   */
  lemma CapacityRejects(rt: Runtime, id: nat)
    requires Inv(rt) && rt.capacity.Some? && |rt.pending| == rt.capacity.value
    ensures Admit(rt, id).pending == rt.pending && Admit(rt, id).processing == rt.processing
  {
  }
}
