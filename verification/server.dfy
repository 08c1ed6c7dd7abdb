/** The decision made by the server's request callback: from the request path
    and the two parsed operands to a status code and one of four body shapes.
    The URL parsing, the JSON serialisation and the socket writes around it
    are not modelled; `Handle` is the whole decision. */
module Server {
  import opened Options
  import opened Calculator

  const RootPath: string := "/"
  const HealthPath: string := "/health"

  const ServiceName: string := "Calculator API"
  const ServiceVersion: string := "1.0.0"
  const HealthyStatus: string := "healthy"
  const MissingOperandsMessage: string := "Parameters a and b are required"
  const NotFoundMessage: string := "Not found"

  /** The arithmetic operation an operation path selects. */
  datatype Op = AddOp | SubtractOp | MultiplyOp | DivideOp

  /** The four JSON shapes a response body can take. */
  datatype Body =
    | Meta(message: string, version: string, endpoints: seq<string>)
    | Health(status: string)
    | Result(result: real)
    | Error(error: string)

  datatype Response = Response(status: int, body: Body)

  /** The path that selects `op`. */
  function PathOf(op: Op): (p: string)
    ensures |p| > 1 && p[0] == '/'
    ensures p != RootPath && p != HealthPath
  {
    match op
    case AddOp => "/add"
    case SubtractOp => "/subtract"
    case MultiplyOp => "/multiply"
    case DivideOp => "/divide"
  }

  /** The endpoint list the root path advertises, in the order the root path lists them. */
  const Endpoints: seq<string> :=
    [PathOf(AddOp), PathOf(SubtractOp), PathOf(MultiplyOp), PathOf(DivideOp)]

  /** The `switch` on the path: the operation whose path is `path`, if any.
      It is the inverse of `PathOf`. */
  function Route(path: string): (r: Option<Op>)
    ensures r.Some? ==> PathOf(r.value) == path
    ensures r.None? ==> forall op: Op :: PathOf(op) != path
  {
    if path == "/add" then Some(AddOp)
    else if path == "/subtract" then Some(SubtractOp)
    else if path == "/multiply" then Some(MultiplyOp)
    else if path == "/divide" then Some(DivideOp)
    else None
  }

  /** One case of the `switch`, inside the `try`: the selected calculator
      function applied to the operands. Only division can fail, and only on a
      zero divisor. */
  function Apply(op: Op, x: real, y: real): (r: DivResult)
    ensures r.DivByZero? <==> op == DivideOp && y == 0.0
    ensures r.Ok? && op == AddOp ==> r.value - y == x
    ensures r.Ok? && op == SubtractOp ==> r.value + y == x
    ensures r.Ok? && op == MultiplyOp && y != 0.0 ==> r.value / y == x
    ensures r.Ok? && op == MultiplyOp && y == 0.0 ==> r.value == 0.0
    ensures r.Ok? && op == DivideOp ==> r.value * y == x
  {
    match op
    case AddOp => Ok(Add(x, y))
    case SubtractOp => Ok(Subtract(x, y))
    case MultiplyOp => Ok(Multiply(x, y))
    case DivideOp => Divide(x, y)
  }

  /** True when `path` is answered without looking at the operands. */
  predicate IsFixedPath(path: string)
  {
    path == RootPath || path == HealthPath
  }

  /** True when a request reaches the `switch` with both operands and the
      `switch` finds no operation for its path. */
  predicate Unroutable(path: string, a: Option<real>, b: Option<real>)
  {
    !IsFixedPath(path) && a.Some? && b.Some? && Route(path).None?
  }

  /** The request callback's decision. The root and health paths are answered
      first; then both operands must be present; only then is the path
      routed, so an unknown path is 404 only when both operands are present.
      The status is always 200, 400 or 404, and an error body goes with
      exactly the non-200 statuses. */
  function Handle(path: string, a: Option<real>, b: Option<real>): (r: Response)
    ensures r.status == 200 || r.status == 400 || r.status == 404
    ensures r.body.Error? <==> r.status != 200
    ensures r.status == 404 <==> Unroutable(path, a, b)
    ensures r.status == 400 <==>
              !IsFixedPath(path) &&
              (a.None? || b.None? || (Route(path) == Some(DivideOp) && b.value == 0.0))
    ensures r.body.Result? ==>
              a.Some? && b.Some? && Route(path).Some? &&
              Apply(Route(path).value, a.value, b.value) == Ok(r.body.result)
  {
    if path == RootPath then
      Response(200, Meta(ServiceName, ServiceVersion, Endpoints))
    else if path == HealthPath then
      Response(200, Health(HealthyStatus))
    else if a.None? || b.None? then
      Response(400, Error(MissingOperandsMessage))
    else
      match Route(path)
      case None => Response(404, Error(NotFoundMessage))
      case Some(op) =>
        match Apply(op, a.value, b.value)
        case Ok(v) => Response(200, Result(v))
        case DivByZero => Response(400, Error(DivByZeroMessage))
  }
}
