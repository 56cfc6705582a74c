/** What a handler leaves behind (the response it wrote, the backend call it
    made, the identity globals afterwards) and how handlers are registered
    on the grpc-gateway `ServeMux`. */
module Http {
  import opened Outcomes
  import opened Jwt

  const StatusOK := 200
  const StatusCreated := 201
  const StatusTemporaryRedirect := 307
  const StatusInternalServerError := 500

  const ApplicationJson := "application/json"

  /** The `http.ResponseWriter` after the handler returned: every
      `WriteHeader` call in order, the `Content-Type` and `Location` headers,
      and the value written as the JSON body. `Aborted` is a handler that
      panicked on a nil dereference; net/http recovers the panic and drops
      the connection. */
  datatype Response<+T> =
    | Written(statuses: seq<int>, contentType: Option<string>, location: Option<string>, body: Option<T>)
    | Aborted

  /** The status line the client receives: the first `WriteHeader` wins, and
      a handler that writes none is answered with 200. */
  function Sent<T>(r: Response<T>): int
    requires r.Written?
  {
    if |r.statuses| == 0 then StatusOK else r.statuses[0]
  }

  /** One request handled: the response, the backend call made (at most one),
      and the identity globals afterwards. */
  datatype Handled<+C, +T> = Handled(response: Response<T>, call: Option<C>, identity: Identity)

  /** A bare `w.WriteHeader(status)`. */
  function Bare<T>(status: int): Response<T> {
    Written([status], None, None, None)
  }

  /** `Content-Type: application/json`, status 200, then `w.Write(body)`. */
  function Json<T>(body: T): Response<T> {
    Written([StatusOK], Some(ApplicationJson), None, Some(body))
  }

  /** What a failed JWT gate leaves: its one status and nothing else. */
  function Refused<C, T>(g: Gate): Handled<C, T> {
    Handled(Written(g.statuses, None, None, None), None, g.identity)
  }

  /** The common tail of most handlers: make `call`; a backend error is 500,
      a marshal failure is 500, otherwise the reply is written as JSON. */
  function Forwarded<C, T>(call: C, reply: Rpc<T>, marshals: bool, identity: Identity): Handled<C, T> {
    match reply
    case RpcError => Handled(Bare(StatusInternalServerError), Some(call), identity)
    case Replied(r) =>
      if !marshals then Handled(Bare(StatusInternalServerError), Some(call), identity)
      else Handled(Json(r), Some(call), identity)
  }

  /** The tail of the read handlers that read a field of the reply before
      checking the error: a backend error dereferences the nil reply. */
  function Fetched<C, T>(call: C, reply: Rpc<T>, marshals: bool, identity: Identity): Handled<C, T> {
    match reply
    case RpcError => Handled(Aborted, Some(call), identity)
    case Replied(r) =>
      if !marshals then Handled(Bare(StatusInternalServerError), Some(call), identity)
      else Handled(Json(r), Some(call), identity)
  }

  datatype Method = GET | POST | PUT

  /** One `mux.HandlePath(verb, pattern, handler)` call; the handler is
      named by its Go method name. */
  datatype Route = Route(verb: Method, pattern: string, handler: string)

  /** The routes registered: those whose pattern the mux could parse, in
      call order. */
  function Kept(routes: seq<Route>, parses: string -> bool): (kept: seq<Route>)
    ensures |kept| <= |routes|
    ensures forall r :: r in kept <==> r in routes && parses(r.pattern)
    ensures (forall i :: 0 <= i < |routes| ==> parses(routes[i].pattern)) ==> kept == routes
  {
    if |routes| == 0 then []
    else
      var last := routes[|routes| - 1];
      Kept(routes[..|routes| - 1], parses) + (if parses(last.pattern) then [last] else [])
  }

  /** The body shared by every `Init`: call `HandlePath` for each route in
      order, overwriting `err` each time, then panic if `err != nil`. A route
      whose pattern does not parse is not registered, and only the last
      route's error survives to the check. */
  method Register(routes: seq<Route>, parses: string -> bool) returns (table: seq<Route>, panics: bool)
    ensures panics <==> |routes| > 0 && !parses(routes[|routes| - 1].pattern)
    ensures table == Kept(routes, parses)
  {
    table := [];
    var err := false;
    var i := 0;
    while i < |routes|
      invariant 0 <= i <= |routes|
      invariant table == Kept(routes[..i], parses)
      invariant err <==> i > 0 && !parses(routes[i - 1].pattern)
    {
      var prefix := routes[..i + 1];
      assert prefix[..i] == routes[..i] && prefix[i] == routes[i];
      assert Kept(prefix, parses) == Kept(routes[..i], parses) + (if parses(routes[i].pattern) then [routes[i]] else []);
      err := !parses(routes[i].pattern);
      if !err {
        table := table + [routes[i]];
      }
      i := i + 1;
    }
    assert routes[..|routes|] == routes;
    panics := err;
  }

  /** Whether every registration in a table is for a distinct (verb,
      pattern) pair. */
  predicate Distinct(routes: seq<Route>) {
    forall i, j :: 0 <= i < j < |routes| ==>
      routes[i].verb != routes[j].verb || routes[i].pattern != routes[j].pattern
  }

  /** Dropping the routes whose pattern does not parse cannot make two
      registrations collide. */
  lemma {:induction false} KeptDistinct(routes: seq<Route>, parses: string -> bool)
    requires Distinct(routes)
    ensures Distinct(Kept(routes, parses))
  {
    if |routes| > 0 {
      var front := routes[..|routes| - 1];
      var last := routes[|routes| - 1];
      assert Distinct(front) by {
        forall i, j | 0 <= i < j < |front|
          ensures front[i].verb != front[j].verb || front[i].pattern != front[j].pattern
        {
          assert front[i] == routes[i] && front[j] == routes[j];
        }
      }
      KeptDistinct(front, parses);
      var k := Kept(front, parses);
      if parses(last.pattern) {
        var all := k + [last];
        forall i, j | 0 <= i < j < |all|
          ensures all[i].verb != all[j].verb || all[i].pattern != all[j].pattern
        {
          if j == |k| {
            assert all[i] in front;
            var m :| 0 <= m < |front| && front[m] == all[i];
            assert routes[m] == all[i] && routes[|routes| - 1] == all[j];
          } else {
            assert all[i] == k[i] && all[j] == k[j];
          }
        }
      }
    }
  }
}
