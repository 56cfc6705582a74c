/** The connection service's HTTP handlers and their route table. */
module ConnectionHandler {
  import opened Outcomes
  import opened Jwt
  import opened Http
  import opened Pipeline

  /** `connection.ConnectionBody`: the sender's id, and the rest. */
  datatype ConnectionBody = ConnectionBody(requestSenderId: string, rest: Fields)

  /** The replies of the mutating RPCs carry a `Success` flag. */
  datatype ActionReply = ActionReply(success: bool)

  /** The reply of the two list RPCs; `None` is a nil `Usernames` slice. */
  datatype UsernamesReply = UsernamesReply(usernames: Option<seq<string>>)

  /** The connection-service RPC a handler invoked, with its argument. */
  datatype Call =
    | CallInsertUser(user: Payload)
    | CallMakeConnectionWithPublicProfile(body: ConnectionBody)
    | CallMakeConnectionRequest(body: ConnectionBody)
    | CallApproveConnectionRequest(body: ConnectionBody)
    | CallBlockConnection(body: ConnectionBody)
    | CallGetConnectionsUsernamesFor(id: string)
    | CallGetRequestsUsernamesFor(id: string)

  const Routes: seq<Route> := [
    Route(POST, "/connection", "MakeConnectionWithPublicProfile"),
    Route(POST, "/connection/request", "MakeConnectionRequest"),
    Route(PUT, "/connection/approve", "ApproveConnectionRequest"),
    Route(GET, "/connection/usernames/{id}", "GetConnectionsUsernamesFor"),
    Route(GET, "/connection/requests/{id}", "GetRequestsUsernamesFor"),
    Route(POST, "/connection/user", "InsertUser"),
    Route(POST, "/connection/block", "BlockConnection")
  ]

  /** Init: seven registrations, none for the same verb and pattern; the
      process panics exactly when the last one, `/connection/block`, fails,
      whatever happened to the six before it. */
  method Init(parses: string -> bool) returns (table: seq<Route>, panics: bool)
    ensures panics <==> !parses("/connection/block")
    ensures forall r :: r in table <==> r in Routes && parses(r.pattern)
    ensures Distinct(table)
    ensures (forall r :: r in Routes ==> parses(r.pattern)) ==> |table| == 7 && !panics
  {
    RoutesDistinct();
    table, panics := Register(Routes, parses);
    KeptDistinct(Routes, parses);
  }

  lemma RoutesDistinct()
    ensures Distinct(Routes)
  {
  }

  /** How a call whose reply carries a `Success` flag went. */
  function Judged(reply: Rpc<ActionReply>): Upstream {
    match reply
    case RpcError => Unreachable
    case Replied(r) => if r.success then Accepted else Rejected
  }

  const InsertUserPolicy := Policy(
    gated := false, decodeFailure := Some(StatusBadRequest), ownership := false,
    unreachable := StatusInternalServerError, rejection := Some(StatusBadRequest),
    encodeFailure := None, success := StatusOK)

  /** InsertUser: no token gate; the decoded user is forwarded as is. */
  function InsertUser(id: Identity, body: Decode<Payload>, reply: Rpc<ActionReply>): (h: Handled<Call, ()>)
    ensures h.identity == id && h.response.Written?
    ensures Conforms(h, InsertUserPolicy, Facts(None, body.Decoded?, true, Judged(reply), true))
    ensures h.call.Some? ==> body.Decoded? && h.call.value == CallInsertUser(body.value)
    ensures h.response.contentType == None && h.response.body == None
  {
    match body
    case Malformed => Handled(Bare(StatusBadRequest), None, id)
    case Decoded(user) =>
      var call := Some(CallInsertUser(user));
      match reply
      case RpcError => Handled(Bare(StatusInternalServerError), call, id)
      case Replied(r) =>
        if !r.success then Handled(Bare(StatusBadRequest), call, id)
        else Handled(Bare(StatusOK), call, id)
  }

  /** The four handlers that act on behalf of `RequestSenderId`. */
  datatype Action = PublicProfile | Request | Approve | Block

  function ActionCall(a: Action, body: ConnectionBody): Call {
    match a
    case PublicProfile => CallMakeConnectionWithPublicProfile(body)
    case Request => CallMakeConnectionRequest(body)
    case Approve => CallApproveConnectionRequest(body)
    case Block => CallBlockConnection(body)
  }

  /** Only the two "make connection" handlers set a JSON content type. */
  predicate AnswersJson(a: Action) {
    a == PublicProfile || a == Request
  }

  const SenderPolicy := Policy(
    gated := true, decodeFailure := Some(StatusBadRequest), ownership := true,
    unreachable := StatusInternalServerError, rejection := Some(StatusBadRequest),
    encodeFailure := None, success := StatusOK)

  /** The body names as sender the caller whose token this request carries. */
  predicate SentByCaller(token: Token, body: Decode<ConnectionBody>) {
    body.Decoded? && IsSubject(token, body.value.requestSenderId)
  }

  /** What each sender-action handler promises: the identity globals change
      only through the gate; the backend is called only for a decodable body
      whose sender is the token's own subject, and then with that body
      unchanged; the status follows the pipeline with decode failure 400,
      sender mismatch 401, backend error 500 and `Success == false` 400. */
  predicate ActsForSender(h: Handled<Call, ()>, a: Action, id: Identity, token: Token,
                          body: Decode<ConnectionBody>, reply: Rpc<ActionReply>) {
    && h.identity == JWTValid(token, id).identity
    && h.response.Written?
    && Conforms(h, SenderPolicy,
                Facts(Denial(JWTValid(token, id)), body.Decoded?, SentByCaller(token, body), Judged(reply), true))
    && (h.call.Some? ==> SentByCaller(token, body) && h.call.value == ActionCall(a, body.value))
    && h.response.body == None
    && h.response.contentType == (if AnswersJson(a) && Sent(h.response) == StatusOK then Some(ApplicationJson) else None)
  }

  /** The shared early-return chain of the four sender-action handlers. */
  function SenderAction(a: Action, id: Identity, token: Token, body: Decode<ConnectionBody>,
                        reply: Rpc<ActionReply>): Handled<Call, ()> {
    var g := JWTValid(token, id);
    if !g.passed then Refused(g)
    else
      match body
      case Malformed => Handled(Bare(StatusBadRequest), None, g.identity)
      case Decoded(request) =>
        if request.requestSenderId != g.identity.id then Handled(Bare(StatusUnauthorized), None, g.identity)
        else
          var call := Some(ActionCall(a, request));
          match reply
          case RpcError => Handled(Bare(StatusInternalServerError), call, g.identity)
          case Replied(r) =>
            if !r.success then Handled(Bare(StatusBadRequest), call, g.identity)
            else if AnswersJson(a) then Handled(Written([StatusOK], Some(ApplicationJson), None, None), call, g.identity)
            else Handled(Bare(StatusOK), call, g.identity)
  }

  function MakeConnectionWithPublicProfile(id: Identity, token: Token, body: Decode<ConnectionBody>,
                                           reply: Rpc<ActionReply>): (h: Handled<Call, ()>)
    ensures ActsForSender(h, PublicProfile, id, token, body, reply)
  {
    SenderAction(PublicProfile, id, token, body, reply)
  }

  function MakeConnectionRequest(id: Identity, token: Token, body: Decode<ConnectionBody>,
                                 reply: Rpc<ActionReply>): (h: Handled<Call, ()>)
    ensures ActsForSender(h, Request, id, token, body, reply)
  {
    SenderAction(Request, id, token, body, reply)
  }

  function ApproveConnectionRequest(id: Identity, token: Token, body: Decode<ConnectionBody>,
                                    reply: Rpc<ActionReply>): (h: Handled<Call, ()>)
    ensures ActsForSender(h, Approve, id, token, body, reply)
  {
    SenderAction(Approve, id, token, body, reply)
  }

  function BlockConnection(id: Identity, token: Token, body: Decode<ConnectionBody>,
                           reply: Rpc<ActionReply>): (h: Handled<Call, ()>)
    ensures ActsForSender(h, Block, id, token, body, reply)
  {
    SenderAction(Block, id, token, body, reply)
  }

  /** The two handlers that list usernames for the path's `{id}`. */
  datatype Listing = Connections | Requests

  function ListingCall(l: Listing, id: string): Call {
    match l
    case Connections => CallGetConnectionsUsernamesFor(id)
    case Requests => CallGetRequestsUsernamesFor(id)
  }

  /** A failed marshal answers 400 here. A backend error is never looked at:
      the listing handlers abort on it instead, so the `unreachable` status
      below is never sent (`ListsForOwner` states when they abort). */
  const ListingPolicy := Policy(
    gated := true, decodeFailure := None, ownership := true,
    unreachable := StatusInternalServerError, rejection := None,
    encodeFailure := Some(StatusBadRequest), success := StatusOK)

  /** What each listing handler promises: the backend is asked only about the
      token's own subject; a backend error is not checked, so the nil reply is
      dereferenced and the request aborts; a nil `Usernames` is answered with
      an empty list, never with JSON `null`. */
  predicate ListsForOwner(h: Handled<Call, seq<string>>, l: Listing, id: Identity, token: Token,
                          pathId: string, reply: Rpc<UsernamesReply>, marshals: bool) {
    && h.identity == JWTValid(token, id).identity
    && (h.response.Aborted? <==> IsSubject(token, pathId) && reply.RpcError?)
    && Conforms(h, ListingPolicy, Facts(Denial(JWTValid(token, id)), true, IsSubject(token, pathId), Reached(reply), marshals))
    && (h.call.Some? <==> IsSubject(token, pathId))
    && (h.call.Some? ==> h.call.value == ListingCall(l, pathId))
    && (h.response.Written? && Sent(h.response) == StatusOK ==>
          reply.Replied? && h.response.contentType == Some(ApplicationJson)
          && h.response.body == Some(if reply.reply.usernames.Some? then reply.reply.usernames.value else []))
  }

  function UsernamesFor(l: Listing, id: Identity, token: Token, pathId: string,
                        reply: Rpc<UsernamesReply>, marshals: bool): Handled<Call, seq<string>> {
    var g := JWTValid(token, id);
    if !g.passed then Refused(g)
    else if pathId != g.identity.id then Handled(Bare(StatusUnauthorized), None, g.identity)
    else
      var call := Some(ListingCall(l, pathId));
      match reply
      case RpcError => Handled(Aborted, call, g.identity)
      case Replied(r) =>
        var usernames := r.usernames.GetOr([]);
        if !marshals then Handled(Bare(StatusBadRequest), call, g.identity)
        else Handled(Json(usernames), call, g.identity)
  }

  function GetConnectionsUsernamesFor(id: Identity, token: Token, pathId: string,
                                      reply: Rpc<UsernamesReply>, marshals: bool): (h: Handled<Call, seq<string>>)
    ensures ListsForOwner(h, Connections, id, token, pathId, reply, marshals)
  {
    UsernamesFor(Connections, id, token, pathId, reply, marshals)
  }

  function GetRequestsUsernamesFor(id: Identity, token: Token, pathId: string,
                                   reply: Rpc<UsernamesReply>, marshals: bool): (h: Handled<Call, seq<string>>)
    ensures ListsForOwner(h, Requests, id, token, pathId, reply, marshals)
  {
    UsernamesFor(Requests, id, token, pathId, reply, marshals)
  }
}
