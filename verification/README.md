# Calculator API — a Dafny model

The Calculator API is a small HTTP service with four arithmetic endpoints
(`/add`, `/subtract`, `/multiply`, `/divide`, each taking query operands `a`
and `b`), a discovery endpoint `/` and a health check `/health`. All of its
logic sits in `src/index.js`: four arithmetic functions and the decision made
inside the server's request callback.

This project models that logic as pure Dafny functions and proves what it
promises:

- `Calculator` (`calculator.dfy`): `Add`, `Subtract`, `Multiply` and `Divide`
  over exact `real`s. `Divide` returns `Ok(q)` or `DivByZero` instead of
  throwing, and tests the divisor before dividing (Dafny's own check that a
  divisor is non-zero confirms the order).
- `Server` (`server.dfy`): the request callback as a total function
  `Handle(path, a, b)` to a `Response` (status code and one of four body
  shapes: `Meta`, `Health`, `Result`, `Error`). `Route` is the `switch` on the
  path and `Apply` one of its cases inside the `try`.
- `ServerProperties` (`server_properties.dfy`): the order of the checks.
  The per-path lemmas (`RootIgnoresOperands`, `HealthIgnoresOperands`,
  `MissingOperandIsRejected`, `UnknownPathIsNotFound`,
  `OperationPathsCompute`, `BareUnknownPathIs400`) are stated against literal
  paths, messages and plain arithmetic; the others relate `Handle`'s helpers
  (`Route`, `PathOf`, `Endpoints`) to each other and to `RouteFirst`.
  `/` and `/health` answer before the operands are read. A missing operand
  is rejected with 400 before the path is routed. So an unknown path is 404
  only when both operands are present. `RouteFirst` is the same decision with
  routing done before validation. `ValidationPrecedesRouting` proves the two
  differ exactly on unknown paths with a missing operand.
- `RequestLog` (`request_log.dfy`): the listener runs the same callback on
  every request. The callback reads no state kept between requests, so the
  model defines a log's responses as the callback applied to each request
  in turn. Statelessness is therefore built into `Responses`, not proved.
  `ResponsesAppend` and `RepeatedRequestsAgree` are facts about any
  per-request map and hold by construction; `RepeatedRequestsAgree` is kept
  as the statement that identical requests get identical responses.
  `NotFoundCountsUnroutable` is about the handler itself: a log's 404s are
  exactly its requests with both operands on an unknown path.
- `Options` (`options.dfy`): `Option<T>`, the parsed operand (`None` when the
  parameter is absent or does not parse).

A request for `/unknown` with no query string is answered 400 ("Parameters
a and b are required"), not 404: operand validation (src/index.js:53-57) runs
before the `switch` reaches its default (src/index.js:74-77). An unknown
path is 404 only when both operands parse. `BareUnknownPathIs400` states
both cases.

## Model

| member | source | states |
|---|---|---|
| Calculator.Add | src/index.js:9-11 | the sum minus either operand gives back the other operand |
| Calculator.Subtract | src/index.js:13-15 | the difference plus the subtrahend gives back the minuend |
| Calculator.Multiply | src/index.js:17-19 | dividing the product by a non-zero operand recovers the other operand; a zero operand gives zero |
| Calculator.Divide | src/index.js:21-26 | fails with DivByZero exactly when the divisor is zero; otherwise the quotient times the divisor is the dividend |
| Calculator.AddSubtractInverse | src/index.js:9-15 | subtracting undoes adding and adding undoes subtracting; add(a,b)+subtract(a,b) = 2a |
| Calculator.MultiplyByZero | src/index.js:17-19 | multiplying by zero gives zero on either side |
| Calculator.DivideInvertsMultiply | src/index.js:17-26 | dividing a product by its non-zero factor returns the other factor; any dividend over zero is refused |
| Calculator.UnitTestCases | src/index.test.js:8-71 | the unit tests' expected values, e.g. add(2,3)=5, multiply(-2,3)=-6, divide(7,2)=3.5, divide(10,0) fails |
| Server.PathOf | src/index.js:62-71 | every operation path starts with '/' and differs from `/` and `/health`, so the fixed-path checks never shadow an operation |
| Server.Route | src/index.js:61-78 | a path selects an operation only when it is that operation's path; every other path selects none |
| Server.Apply | src/index.js:59-84 | only division can fail, and only on a zero divisor; each successful value is related to the operands by its operation's inverse (a zero multiplier gives zero) |
| Server.Handle | src/index.js:29-85 | the status is 200, 400 or 404; exactly the non-200 answers carry an error body; 404 exactly for an unknown path with both operands present; 400 exactly for a missing operand on a non-fixed path or division by zero |
| ServerProperties.RouteRoundTrip | src/index.js:61-72 | each operation's path routes to it, and only that path does |
| ServerProperties.AdvertisedEndpointsAreRoutable | src/index.js:36-72 | the root's endpoint list is ["/add","/subtract","/multiply","/divide"], without repeats, and a path is listed exactly when the switch accepts it |
| ServerProperties.RootIgnoresOperands | src/index.js:34-42 | `/` answers 200 with the fixed metadata whatever the operands |
| ServerProperties.HealthIgnoresOperands | src/index.js:44-48 | `/health` answers 200 `{status:"healthy"}` whatever the operands |
| ServerProperties.MissingOperandIsRejected | src/index.js:50-57 | on any other path, known or not, a missing operand gives 400 "Parameters a and b are required" |
| ServerProperties.UnknownPathIsNotFound | src/index.js:61-77 | an unrecognised path with both operands present gives 404 "Not found" |
| ServerProperties.OperationPathsCompute | src/index.js:59-84 | with both operands, the four paths answer 200 with a+b, a-b, a*b, a/b, except /divide with b=0, which answers 400 "Cannot divide by zero" |
| ServerProperties.UnusedOperandsDoNotMatter | src/index.js:34-57 | the fixed paths ignore the operands, and all requests with a missing operand on one path get the same answer |
| ServerProperties.RouteFirst | src/index.js:34-77 | a route-first handler answers every unknown path 404 |
| ServerProperties.ValidationPrecedesRouting | src/index.js:50-77 | Handle and the route-first handler differ exactly on unknown paths with a missing operand, where Handle answers 400 and the other 404 |
| ServerProperties.BareUnknownPathIs400 | src/index.js:50-77 | `/unknown` without operands gives 400; with both operands it gives 404 |
| RequestLog.Responses | src/index.js:29-85 | one response per request, the i-th being the callback's answer to the i-th request alone |
| RequestLog.ResponsesAppend | src/index.js:29-85 | serving two logs back to back is serving each on its own (holds for any per-request map) |
| RequestLog.RepeatedRequestsAgree | src/index.js:29-85 | identical requests anywhere in a log get identical responses |
| RequestLog.ResponseStatusesAreKnown | src/index.js:29-85 | every response in a log has status 200, 400 or 404 |
| RequestLog.Answer | src/index.js:29-85 | one request's answer is 404 exactly when it is unroutable: both operands present on a path that is neither fixed nor an operation |
| RequestLog.NotFoundCountsUnroutable | src/index.js:50-77 | the number of 404 answers in a log equals the number of unroutable requests in it |

## Left out

- Creating and starting the server, the `PORT` lookup (default 3000) and the console log (src/index.js:29, 87-94): network and process I/O.
- Building the `URL` from `req.url` and the `Host` header, and reading the query with `searchParams.get` (src/index.js:30, 50-51): the path is a given string and each operand an already-parsed `Option<real>`.
- The grammar of JavaScript's `parseFloat` (numeric prefixes such as "3abc", "Infinity"): parsing is opaque; only "absent or unparseable gives `None`" is modelled.
- IEEE-754 doubles: NaN, infinities, signed zero (`-0 === 0` in the divide check) and rounding. The model uses exact reals, so the test `add(0.1, 0.2).toFixed(1) === '0.3'` becomes the exact `Add(0.1, 0.2) == 0.3`.
- JSON serialisation and the `Content-Type: application/json` header (src/index.js:32): only the abstract body shape is modelled.
- The `catch` block catching errors other than division by zero (src/index.js:81-84): nothing else inside the `try` can throw in the model.
- `module.exports` (src/index.js:97).
