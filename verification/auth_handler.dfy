/** The login and refresh handlers: both answer with a redirect to the
    authentication service, and neither looks at the token. */
module AuthHandler {
  import opened Outcomes
  import opened Jwt
  import opened Http
  import opened Pipeline

  /** `domain.Credentials`, and the stored credentials the profile service
      returns for a username. */
  datatype Credentials = Credentials(username: string, password: string)

  /** The one RPC these handlers make, on the profile service. */
  datatype Call = CallGetCredentials(username: string)

  const Routes: seq<Route> := [
    Route(POST, "/login", "Login"),
    Route(GET, "/refresh", "Refresh")
  ]

  /** Init: `POST /login` and `GET /refresh`; the process panics exactly when
      the second fails. */
  method Init(parses: string -> bool) returns (table: seq<Route>, panics: bool)
    ensures panics <==> !parses("/refresh")
    ensures forall r :: r in table <==> r in Routes && parses(r.pattern)
    ensures Distinct(table)
    ensures (forall r :: r in Routes ==> parses(r.pattern)) ==> |table| == 2 && !panics
  {
    table, panics := Register(Routes, parses);
    KeptDistinct(Routes, parses);
  }

  /** `http.Redirect(w, r, url, 307)` for an absolute URL: the `Location`
      header and the status; for a GET it also sets an HTML content type. */
  function Redirect<T>(url: string, get: bool): Response<T> {
    Written([StatusTemporaryRedirect], if get then Some("text/html; charset=utf-8") else None, Some(url), None)
  }

  /** How the credential lookup for a decoded body went: an error and a
      mismatch of either field are both refusals. */
  function Matched(body: Decode<Credentials>, reply: Rpc<Credentials>): Upstream {
    match reply
    case RpcError => Unreachable
    case Replied(stored) => if body.Decoded? && stored == body.value then Accepted else Rejected
  }

  /** A backend error is answered 400 here, like a mismatch; the happy path
      is a redirect. */
  const LoginPolicy := Policy(
    gated := false, decodeFailure := Some(StatusBadRequest), ownership := false,
    unreachable := StatusBadRequest, rejection := Some(StatusBadRequest),
    encodeFailure := None, success := StatusTemporaryRedirect)

  /** Login: no token gate and no change to the identity globals; the
      stored credentials are looked up by the submitted username, and the
      client is redirected to the authentication service's `/login` exactly
      when the lookup succeeded and returned the submitted credentials. */
  function Login(id: Identity, authAddress: string, body: Decode<Credentials>, reply: Rpc<Credentials>): (h: Handled<Call, ()>)
    ensures h.identity == id && h.response.Written?
    ensures Conforms(h, LoginPolicy, Facts(None, body.Decoded?, true, Matched(body, reply), true))
    ensures h.call.Some? <==> body.Decoded?
    ensures h.call.Some? ==> h.call.value == CallGetCredentials(body.value.username)
    ensures Sent(h.response) == StatusTemporaryRedirect <==> body.Decoded? && reply == Replied(body.value)
    ensures h.response.location.Some? <==> Sent(h.response) == StatusTemporaryRedirect
    ensures h.response.location.Some? ==> h.response.location.value == "http://" + authAddress + "/login"
  {
    match body
    case Malformed => Handled(Bare(StatusBadRequest), None, id)
    case Decoded(credentials) =>
      var call := Some(CallGetCredentials(credentials.username));
      if reply.RpcError? || reply.reply.username != credentials.username || reply.reply.password != credentials.password
      then Handled(Bare(StatusBadRequest), call, id)
      else Handled(Redirect("http://" + authAddress + "/login", false), call, id)
  }

  /** A wrong password is refused with 400 and no redirect. */
  lemma WrongPasswordRefused(id: Identity, authAddress: string)
    ensures var h := Login(id, authAddress, Decoded(Credentials("alice", "wrong")), Replied(Credentials("alice", "right")));
            Sent(h.response) == StatusBadRequest && h.response.location == None
  {
  }

  /** Refresh: always a redirect to the authentication service's
      `/refresh`, with no backend call and no change to the identity. */
  function Refresh(id: Identity, authAddress: string): (h: Handled<Call, ()>)
    ensures h.identity == id && h.call == None
    ensures h.response.Written? && h.response.statuses == [StatusTemporaryRedirect]
    ensures h.response.location == Some("http://" + authAddress + "/refresh")
    ensures h.response.contentType == Some("text/html; charset=utf-8")
  {
    Handled(Redirect("http://" + authAddress + "/refresh", true), None, id)
  }
}
