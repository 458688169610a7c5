/**
 * Bus messages, the fragments a request's output sink carries, and the metric
 * events the dispatcher emits (libraries/protocol/src/server.ts).
 */
module Messages {
  import opened Wrappers

  /** A request payload, as the services' validators see it. */
  type Payload = string

  /**
   * An inbound terminal message, reduced to the fields the dispatcher reads.
   * `req` is None when the payload is absent; a present payload may still be
   * the falsy empty string. `hasFrame` and `hasRes` say whether the message
   * carries a (truthy) `frame` or `res` field.
   */
  datatype Message = Message(
    traceId: string,
    methodName: string,
    req: Option<Payload>,
    hasFrame: bool,
    hasRes: bool,
    sourceTerminalId: string)

  /**
   * The filter at the head of the input subscription: only a message with a
   * method and a truthy payload, and with neither a frame nor a response,
   * starts a lifecycle.
   */
  predicate IsRequest(m: Message) {
    m.methodName != "" && m.req.Some? && m.req.value != "" && !m.hasFrame && !m.hasRes
  }

  /** One unit pushed to the caller: `{}`, `{frame}` or `{res: {code, message}}`. */
  datatype Fragment = Heartbeat | Frame(data: string) | Response(code: int, text: string)

  /**
   * A request's output sink (`output$`) together with the subscriber that
   * remembers the last `res` seen (`requestContext.response`).
   */
  datatype Sink = Sink(fragments: seq<Fragment>, closed: bool, lastCode: Option<int>)

  const OpenSink := Sink([], false, None)

  /** `output$.next(f)`: a completed Subject ignores further values. */
  function Push(s: Sink, f: Fragment): Sink {
    if s.closed then s
    else Sink(s.fragments + [f], false, if f.Response? then Some(f.code) else s.lastCode)
  }

  /** `output$.complete()`. */
  function Close(s: Sink): Sink {
    s.(closed := true)
  }

  /** Reference definition: the code of the last response fragment in a log. */
  function LastResponseCode(fs: seq<Fragment>): Option<int> {
    if fs == [] then None
    else if fs[|fs| - 1].Response? then Some(fs[|fs| - 1].code)
    else LastResponseCode(fs[..|fs| - 1])
  }

  /** The sink's running tracker agrees with the log it has let through. */
  ghost predicate Tracks(s: Sink) {
    s.lastCode == LastResponseCode(s.fragments)
  }

  /** The code a duration observation is tagged with: `response?.code ?? 520`. */
  function FinalCode(s: Sink): int {
    s.lastCode.GetOr(520)
  }

  lemma {:induction false} PushKeepsTracking(s: Sink, f: Fragment)
    requires Tracks(s)
    ensures Tracks(Push(s, f))
    ensures s.closed ==> Push(s, f) == s
    ensures !s.closed ==> Push(s, f).fragments == s.fragments + [f] && !Push(s, f).closed
  {
    if !s.closed {
      var fs := s.fragments + [f];
      assert fs[..|fs| - 1] == s.fragments;
    }
  }

  lemma {:induction false} FinalCodeIsLastResponse(s: Sink)
    requires Tracks(s)
    ensures FinalCode(s) == 520 <==> LastResponseCode(s.fragments).None? || LastResponseCode(s.fragments).value == 520
    ensures (exists i :: 0 <= i < |s.fragments| && s.fragments[i].Response?) ==> LastResponseCode(s.fragments).Some?
  {
    if exists i :: 0 <= i < |s.fragments| && s.fragments[i].Response? {
      var i :| 0 <= i < |s.fragments| && s.fragments[i].Response?;
      SomeResponseFound(s.fragments, i);
    }
  }

  /** A log without any response has no last response code. */
  lemma {:induction false} NoResponseFound(fs: seq<Fragment>)
    requires forall i :: 0 <= i < |fs| ==> !fs[i].Response?
    ensures LastResponseCode(fs).None?
    decreases |fs|
  {
    if fs != [] {
      NoResponseFound(fs[..|fs| - 1]);
    }
  }

  lemma {:induction false} SomeResponseFound(fs: seq<Fragment>, i: nat)
    requires i < |fs| && fs[i].Response?
    ensures LastResponseCode(fs).Some?
    decreases |fs|
  {
    if !fs[|fs| - 1].Response? {
      SomeResponseFound(fs[..|fs| - 1], i);
    }
  }

  /** A metric event received by the metrics collaborator. */
  datatype Metric =
    | RequestReceived(methodName: string, sourceTerminalId: string, targetTerminalId: string)
    | RequestDuration(methodName: string, sourceTerminalId: string, targetTerminalId: string, code: int, duration: int)
}
