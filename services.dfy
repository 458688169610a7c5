/**
 * Service descriptors, the registry's lookup rules and the routing decision
 * of the Initialized transition (libraries/protocol/src/server.ts).
 */
module Services {
  import opened Wrappers
  import opened Messages

  /** A concurrency or capacity limit; None is the source's `Infinity`. */
  type Limit = Option<nat>

  /**
   * A registered service. `serviceId` is "" when the descriptor leaves it
   * unset; `concurrent` and `maxPendingRequests` are the configured options.
   * The handler is not part of the model: its outcome arrives as an event.
   */
  datatype Service = Service(
    serviceId: string,
    methodName: string,
    validator: Payload -> bool,
    concurrent: Option<nat>,
    maxPendingRequests: Option<nat>)

  /** The key a descriptor is stored under: `service_id || method`. */
  function ServiceKey(s: Service): string {
    if s.serviceId != "" then s.serviceId else s.methodName
  }

  /** `configured || Infinity`: an absent option and a zero both mean "no limit". */
  function EffectiveLimit(configured: Option<nat>): (l: Limit)
    ensures l.None? <==> configured.None? || configured.value == 0
    ensures l.Some? ==> l == configured && l.value > 0
  {
    if configured.Some? && configured.value != 0 then configured else None
  }

  /** The result of routing one request. */
  datatype Route =
    | MethodNotFound
    | AmbiguousService
    | NoMatchingService
    | ServiceNotFound
    | Bound(serviceId: string, handle: nat)

  /** The candidate ids that still have a descriptor whose validator accepts `p`. */
  function Accepting(services: map<string, Service>, candidates: set<string>, p: Payload): set<string> {
    set k | k in candidates && k in services && services[k].validator(p)
  }

  /**
   * Reference definition of routing: unknown method; two or more accepting
   * candidates; none; otherwise the one acceptor's runtime context, if any.
   */
  ghost function RouteOf(services: map<string, Service>, index: map<string, set<string>>,
                         contexts: map<string, nat>, name: string, p: Payload): Route
  {
    if name !in index then MethodNotFound
    else
      var acc := Accepting(services, index[name], p);
      if |acc| > 1 then AmbiguousService
      else if acc == {} then NoMatchingService
      else
        var k :| k in acc;
        var key := ServiceKey(services[k]);
        if key in contexts then Bound(key, contexts[key]) else ServiceNotFound
  }

  /** The response a rejected route produces. */
  function Rejection(r: Route): Fragment
    requires !r.Bound?
  {
    match r
    case MethodNotFound => Response(400, "Bad Request: Method Not Found")
    case AmbiguousService => Response(400, "Bad Request: Ambiguous Service")
    case NoMatchingService => Response(400, "Bad Request: No Matching Service")
    case ServiceNotFound => Response(500, "Internal Server Error: Service Not Found")
  }

  /** Every stored descriptor sits under its own key, and that key has a runtime context. */
  ghost predicate Consistent(services: map<string, Service>, contexts: map<string, nat>) {
    forall k :: k in services ==> ServiceKey(services[k]) == k && k in contexts
  }

  lemma SingletonMember(s: set<string>, a: string, b: string)
    requires |s| == 1 && a in s && b in s
    ensures a == b
  {
    if a != b {
      assert {a, b} <= s;
      assert |{a, b}| == 2;
      SubsetCard({a, b}, s);
    }
  }

  lemma {:induction false} SubsetCard(a: set<string>, b: set<string>)
    requires a <= b
    ensures |a| <= |b|
  {
    if a != {} {
      var x :| x in a;
      SubsetCard(a - {x}, b - {x});
    }
  }

  /** Looking at one more candidate adds it to the acceptors exactly when it has a descriptor that accepts. */
  lemma AcceptingGrows(services: map<string, Service>, seen: set<string>, k: string, p: Payload)
    ensures Accepting(services, seen + {k}, p) ==
              Accepting(services, seen, p) + (if k in services && services[k].validator(p) then {k} else {})
  {
  }

  /** Two different acceptors make the acceptor set larger than one. */
  lemma TwoAcceptors(services: map<string, Service>, candidates: set<string>, p: Payload, a: string, b: string)
    requires a in Accepting(services, candidates, p) && b in Accepting(services, candidates, p) && a != b
    ensures |Accepting(services, candidates, p)| > 1
  {
    assert {a, b} <= Accepting(services, candidates, p);
    assert |{a, b}| == 2;
    SubsetCard({a, b}, Accepting(services, candidates, p));
  }

  /** Ambiguity means two different candidates both accept the payload. */
  lemma AmbiguousIffTwoAccept(services: map<string, Service>, index: map<string, set<string>>,
                              contexts: map<string, nat>, name: string, p: Payload)
    ensures RouteOf(services, index, contexts, name, p) == AmbiguousService <==>
              name in index &&
              exists a, b :: a in Accepting(services, index[name], p) && b in Accepting(services, index[name], p) && a != b
  {
    if name in index {
      var acc := Accepting(services, index[name], p);
      if |acc| > 1 {
        var a :| a in acc;
        assert |acc - {a}| > 0;
        var b :| b in acc - {a};
        assert a in acc && b in acc && a != b;
      }
      if exists a, b :: a in acc && b in acc && a != b {
        var a, b :| a in acc && b in acc && a != b;
        TwoAcceptors(services, index[name], p, a, b);
      }
    }
  }

  /**
   * With a consistent registry the defensive 500 never fires, and a request
   * is bound exactly when one candidate accepts it, to that candidate's context.
   */
  lemma ConsistentRouting(services: map<string, Service>, index: map<string, set<string>>,
                          contexts: map<string, nat>, name: string, p: Payload)
    requires Consistent(services, contexts)
    ensures RouteOf(services, index, contexts, name, p) != ServiceNotFound
    ensures RouteOf(services, index, contexts, name, p).Bound? <==>
              name in index && exists k :: Accepting(services, index[name], p) == {k}
    ensures forall k :: name in index && Accepting(services, index[name], p) == {k} ==>
              RouteOf(services, index, contexts, name, p) == Bound(k, contexts[k])
  {
    if name in index {
      var acc := Accepting(services, index[name], p);
      if |acc| == 1 {
        var k :| k in acc;
        forall j | j in acc ensures j == k { SingletonMember(acc, j, k); }
        assert acc == {k};
      }
      forall k | acc == {k} ensures RouteOf(services, index, contexts, name, p) == Bound(k, contexts[k]) {
        assert |acc| == 1;
      }
    }
  }

  /** A candidate id whose descriptor was removed is skipped: it cannot change the route. */
  lemma RemovedCandidateIgnored(services: map<string, Service>, index: map<string, set<string>>,
                                contexts: map<string, nat>, name: string, p: Payload, gone: string)
    requires name in index && gone !in services
    ensures RouteOf(services, index[name := index[name] + {gone}], contexts, name, p)
         == RouteOf(services, index, contexts, name, p)
  {
    assert Accepting(services, index[name] + {gone}, p) == Accepting(services, index[name], p);
  }

  /** A bound route names a registered key and the context that key maps to. */
  lemma BoundRouteIsRegistered(services: map<string, Service>, index: map<string, set<string>>,
                               contexts: map<string, nat>, name: string, p: Payload)
    requires RouteOf(services, index, contexts, name, p).Bound?
    ensures RouteOf(services, index, contexts, name, p).serviceId in contexts
    ensures contexts[RouteOf(services, index, contexts, name, p).serviceId] == RouteOf(services, index, contexts, name, p).handle
  {
  }

  /**
   * A method whose candidates have all been removed is still known: it
   * yields "No Matching Service", not "Method Not Found".
   */
  lemma EmptiedMethodHasNoMatch(services: map<string, Service>, index: map<string, set<string>>,
                                contexts: map<string, nat>, name: string, p: Payload)
    requires name in index && forall k :: k in index[name] ==> k !in services
    ensures RouteOf(services, index, contexts, name, p) == NoMatchingService
  {
    assert Accepting(services, index[name], p) == {};
  }
}
