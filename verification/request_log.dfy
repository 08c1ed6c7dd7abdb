/** The server across many requests: the listener runs the same callback on
    each request, and the callback keeps nothing from one request to the
    next. A log of requests therefore maps to its responses one by one. */
module RequestLog {
  import opened Options
  import opened Server

  datatype Request = Request(path: string, a: Option<real>, b: Option<real>)

  /** The answer the callback gives to one request. */
  function Answer(req: Request): (r: Response)
    ensures r.status == 404 <==> UnroutableRequest(req)
  {
    Handle(req.path, req.a, req.b)
  }

  /** True when the request is unroutable in the sense of `Server.Unroutable`. */
  predicate UnroutableRequest(req: Request)
  {
    Unroutable(req.path, req.a, req.b)
  }

  /** The number of responses in `rs` with status `s`. */
  function CountStatus(rs: seq<Response>, s: int): nat
  {
    if rs == [] then 0
    else (if rs[0].status == s then 1 else 0) + CountStatus(rs[1..], s)
  }

  /** The number of unroutable requests in `log`. */
  function CountUnroutable(log: seq<Request>): nat
  {
    if log == [] then 0
    else (if UnroutableRequest(log[0]) then 1 else 0) + CountUnroutable(log[1..])
  }

  /** The responses to a log of requests, in arrival order: one per request,
      the i-th being the callback's answer to the i-th request alone. */
  function Responses(log: seq<Request>): (rs: seq<Response>)
    ensures |rs| == |log|
    ensures forall i :: 0 <= i < |log| ==> rs[i] == Answer(log[i])
  {
    if log == [] then [] else [Answer(log[0])] + Responses(log[1..])
  }

  /** Serving two logs back to back is serving each on its own: no request
      changes how a later one is answered. */
  lemma {:induction false} ResponsesAppend(p: seq<Request>, q: seq<Request>)
    ensures Responses(p + q) == Responses(p) + Responses(q)
  {
    if p == [] {
      assert p + q == q;
    } else {
      assert (p + q)[1..] == p[1..] + q;
      ResponsesAppend(p[1..], q);
    }
  }

  /** Identical requests get identical responses wherever they sit in the
      log. */
  lemma RepeatedRequestsAgree(log: seq<Request>, i: int, j: int)
    requires 0 <= i < |log| && 0 <= j < |log|
    requires log[i] == log[j]
    ensures Responses(log)[i] == Responses(log)[j]
  {
  }

  /** Every response in a log has status 200, 400 or 404. */
  lemma ResponseStatusesAreKnown(log: seq<Request>, i: int)
    requires 0 <= i < |log|
    ensures Responses(log)[i].status in {200, 400, 404}
  {
  }

  /** A log's 404 answers are exactly its unroutable requests: as many 404s
      as requests that carry both operands on a path that is neither fixed
      nor an operation, however the log mixes them with other requests. */
  lemma {:induction false} NotFoundCountsUnroutable(log: seq<Request>)
    ensures CountStatus(Responses(log), 404) == CountUnroutable(log)
  {
    if log != [] {
      var rs := Responses(log);
      assert rs[0] == Answer(log[0]);
      assert rs[1..] == Responses(log[1..]);
      NotFoundCountsUnroutable(log[1..]);
    }
  }
}
