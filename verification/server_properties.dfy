/** Properties of the request callback's decision. The per-path lemmas
    (`RootIgnoresOperands`, `HealthIgnoresOperands`, `MissingOperandIsRejected`,
    `UnknownPathIsNotFound`, `OperationPathsCompute`, `BareUnknownPathIs400`)
    are stated against literal paths, messages and plain arithmetic; the
    others relate `Handle`'s helpers to each other and to `RouteFirst`. */
module ServerProperties {
  import opened Options
  import opened Calculator
  import opened Server

  /** `PathOf` and `Route` are inverse: every operation's path routes back to
      it, and a path routes to an operation only if it is that operation's
      path. */
  lemma RouteRoundTrip(op: Op, path: string)
    ensures Route(PathOf(op)) == Some(op)
    ensures Route(path) == Some(op) <==> path == PathOf(op)
  {
  }

  /** The root path advertises exactly the paths the `switch` accepts, each
      once. */
  lemma AdvertisedEndpointsAreRoutable(path: string)
    ensures path in Endpoints <==> Route(path).Some?
    ensures Endpoints == ["/add", "/subtract", "/multiply", "/divide"]
    ensures forall i, j :: 0 <= i < j < |Endpoints| ==> Endpoints[i] != Endpoints[j]
  {
  }

  /** The root path is answered with the fixed metadata whatever the
      operands are. */
  lemma RootIgnoresOperands(a: Option<real>, b: Option<real>)
    ensures Handle("/", a, b) ==
            Response(200, Meta("Calculator API", "1.0.0",
                               ["/add", "/subtract", "/multiply", "/divide"]))
  {
  }

  /** The health path is answered with `{status: "healthy"}` whatever the
      operands are. */
  lemma HealthIgnoresOperands(a: Option<real>, b: Option<real>)
    ensures Handle("/health", a, b) == Response(200, Health("healthy"))
  {
  }

  /** On any other path, known or not, a missing or unparseable operand is
      answered 400 before the path is routed and before any arithmetic. */
  lemma MissingOperandIsRejected(path: string, a: Option<real>, b: Option<real>)
    requires path != "/" && path != "/health"
    requires a.None? || b.None?
    ensures Handle(path, a, b) == Response(400, Error("Parameters a and b are required"))
  {
  }

  /** An unrecognised path with both operands present is answered 404. */
  lemma UnknownPathIsNotFound(path: string, x: real, y: real)
    requires path !in {"/", "/health", "/add", "/subtract", "/multiply", "/divide"}
    ensures Handle(path, Some(x), Some(y)) == Response(404, Error("Not found"))
  {
  }

  /** With both operands present, each operation path answers 200 with the
      operation's value, except division by zero, which answers 400 with the
      divide-by-zero message. */
  lemma OperationPathsCompute(x: real, y: real)
    ensures Handle("/add", Some(x), Some(y)) == Response(200, Result(x + y))
    ensures Handle("/subtract", Some(x), Some(y)) == Response(200, Result(x - y))
    ensures Handle("/multiply", Some(x), Some(y)) == Response(200, Result(x * y))
    ensures y != 0.0 ==> Handle("/divide", Some(x), Some(y)) == Response(200, Result(x / y))
    ensures y == 0.0 ==>
              Handle("/divide", Some(x), Some(y)) == Response(400, Error("Cannot divide by zero"))
  {
  }

  /** Operands the handler never reaches do not matter: on the fixed paths
      the operands are ignored, and once one operand is missing the other
      one, and the value of the present one, are ignored too. */
  lemma UnusedOperandsDoNotMatter(path: string, a: Option<real>, b: Option<real>,
                                  a': Option<real>, b': Option<real>)
    ensures IsFixedPath(path) ==> Handle(path, a, b) == Handle(path, a', b')
    ensures (a.None? || b.None?) && (a'.None? || b'.None?) ==>
              Handle(path, a, b) == Handle(path, a', b')
  {
  }

  /** The same decision with the checks in route-first order: route the
      path first (unknown paths are 404 whatever the operands), validate
      the operands second. `Handle` does not behave this way. */
  function RouteFirst(path: string, a: Option<real>, b: Option<real>): (r: Response)
    ensures Route(path).None? && !IsFixedPath(path) ==> r.status == 404
  {
    if path == RootPath then
      Response(200, Meta(ServiceName, ServiceVersion, Endpoints))
    else if path == HealthPath then
      Response(200, Health(HealthyStatus))
    else if Route(path).None? then
      Response(404, Error(NotFoundMessage))
    else if a.None? || b.None? then
      Response(400, Error(MissingOperandsMessage))
    else
      match Apply(Route(path).value, a.value, b.value)
      case Ok(v) => Response(200, Result(v))
      case DivByZero => Response(400, Error(DivByZeroMessage))
  }

  /** The order of the checks matters exactly for unknown paths with a
      missing operand: there `Handle` answers 400 where a route-first
      handler would answer 404. Everywhere else the two agree. */
  lemma ValidationPrecedesRouting(path: string, a: Option<real>, b: Option<real>)
    ensures Handle(path, a, b) != RouteFirst(path, a, b) <==>
              !IsFixedPath(path) && Route(path).None? && (a.None? || b.None?)
    ensures Handle(path, a, b) != RouteFirst(path, a, b) ==>
              Handle(path, a, b).status == 400 && RouteFirst(path, a, b).status == 404
  {
  }

  /** A bare request for an unknown path, with no query string, is answered
      400 and not 404. */
  lemma BareUnknownPathIs400()
    ensures Handle("/unknown", None, None) == Response(400, Error("Parameters a and b are required"))
    ensures Handle("/unknown", Some(1.0), Some(2.0)) == Response(404, Error("Not found"))
  {
  }
}
