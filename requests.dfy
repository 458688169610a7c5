/**
 * The per-request record (`IRequestContext`): the message, the lifecycle
 * phase, the bound runtime context and the five lifecycle timestamps
 * (libraries/protocol/src/server.ts). The output sink is kept beside it.
 */
module Requests {
  import opened Wrappers
  import opened Messages

  /** The lifecycle: Initialized, Routed, Pending, Processing, Processed, Finalizing. */
  datatype Phase = Initialized | Routed | Pending | Processing | Processed | Finalizing

  /** The timestamps, each None (the source's NaN) until its transition fires. */
  datatype Stamps = Stamps(
    initializedAt: Option<nat>,
    routedAt: Option<nat>,
    processingAt: Option<nat>,
    processedAt: Option<nat>,
    finalizedAt: Option<nat>)

  const Unstamped := Stamps(None, None, None, None, None)

  /** `binding` is the handle of the bound runtime context (`serviceContext`). */
  datatype Request = Request(message: Message, phase: Phase, binding: Option<nat>, stamps: Stamps)

  function Timeline(s: Stamps): seq<Option<nat>> {
    [s.initializedAt, s.routedAt, s.processingAt, s.processedAt, s.finalizedAt]
  }

  /** The index in `Timeline` of the last timestamp a phase may have set. */
  function Reach(p: Phase): nat {
    match p
    case Initialized => 0
    case Routed => 1
    case Pending => 1
    case Processing => 2
    case Processed => 3
    case Finalizing => 4
  }

  predicate NotAfter(a: Option<nat>, b: Option<nat>) {
    a.Some? && b.Some? ==> a.value <= b.value
  }

  predicate AtMost(a: Option<nat>, t: nat) {
    a.Some? ==> a.value <= t
  }

  /**
   * A request record is well formed at time `clock`: no timestamp is later
   * than the clock, the set ones are non-decreasing in transition order,
   * none beyond its phase is set, it is stamped once past Initialized, and
   * it is bound to a runtime context from Routed up to Processed.
   */
  ghost predicate RequestOk(q: Request, clock: nat) {
    var s := q.stamps;
    AtMost(s.initializedAt, clock) && AtMost(s.routedAt, clock) && AtMost(s.processingAt, clock) &&
    AtMost(s.processedAt, clock) && AtMost(s.finalizedAt, clock) &&
    NotAfter(s.initializedAt, s.routedAt) && NotAfter(s.initializedAt, s.processingAt) &&
    NotAfter(s.initializedAt, s.processedAt) && NotAfter(s.initializedAt, s.finalizedAt) &&
    NotAfter(s.routedAt, s.processingAt) && NotAfter(s.routedAt, s.processedAt) &&
    NotAfter(s.routedAt, s.finalizedAt) && NotAfter(s.processingAt, s.processedAt) &&
    NotAfter(s.processingAt, s.finalizedAt) && NotAfter(s.processedAt, s.finalizedAt) &&
    (Reach(q.phase) < 1 ==> s.routedAt.None?) &&
    (Reach(q.phase) < 2 ==> s.processingAt.None?) &&
    (Reach(q.phase) < 3 ==> s.processedAt.None?) &&
    (Reach(q.phase) < 4 ==> s.finalizedAt.None?) &&
    (q.phase != Initialized ==> s.initializedAt.Some?) &&
    (q.phase in {Routed, Pending, Processing, Processed} ==> q.binding.Some?)
  }

  /** The lifecycle edges a request may take. */
  predicate Step(from: Phase, to: Phase) {
    match from
    case Initialized => to in {Routed, Finalizing}
    case Routed => to in {Pending, Processing, Finalizing}
    case Pending => to == Processing
    case Processing => to == Processed
    case Processed => to == Finalizing
    case Finalizing => false
  }

  /** Stamping the timestamp of the phase entered, at the current clock, keeps a record well formed. */
  lemma {:induction false} AdvanceKeepsOk(q: Request, to: Phase, clock: nat)
    requires RequestOk(q, clock) && Step(q.phase, to) && to != Pending
    requires q.phase == Initialized ==> q.stamps.initializedAt.Some?
    requires to in {Routed, Processing, Processed} ==> q.binding.Some?
    ensures RequestOk(Advance(q, to, clock), clock)
    ensures Advance(q, to, clock).phase == to
    ensures Timeline(Advance(q, to, clock).stamps)[Reach(to)] == Some(clock)
  {
  }

  /** Enter phase `to`, recording its timestamp. */
  function Advance(q: Request, to: Phase, clock: nat): Request
    requires to != Pending
  {
    match to
    case Initialized => q.(phase := to, stamps := q.stamps.(initializedAt := Some(clock)))
    case Routed => q.(phase := to, stamps := q.stamps.(routedAt := Some(clock)))
    case Processing => q.(phase := to, stamps := q.stamps.(processingAt := Some(clock)))
    case Processed => q.(phase := to, stamps := q.stamps.(processedAt := Some(clock)))
    case Finalizing => q.(phase := to, stamps := q.stamps.(finalizedAt := Some(clock)))
  }

  /** The duration observation: finalized minus initialized. */
  function Elapsed(q: Request): int
    requires q.stamps.initializedAt.Some? && q.stamps.finalizedAt.Some?
  {
    q.stamps.finalizedAt.value - q.stamps.initializedAt.value
  }

  lemma ElapsedNonNegative(q: Request, clock: nat)
    requires RequestOk(q, clock) && q.stamps.initializedAt.Some? && q.stamps.finalizedAt.Some?
    ensures 0 <= Elapsed(q) <= clock
  {
  }
}
