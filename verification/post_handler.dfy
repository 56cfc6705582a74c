/** The post service's HTTP handlers and their route table. */
module PostHandler {
  import opened Outcomes
  import opened Jwt
  import opened Http
  import opened Pipeline

  /** A message one of whose fields the handler overwrites with the caller's
      identity before forwarding it: `Reaction.Username`, `Comment.Username`
      or `Job.UserId`. */
  datatype Owned = Owned(owner: string, rest: Fields)

  /** The post-service RPC a handler invoked, with its argument. */
  datatype Call =
    | CallGetAll
    | CallGet(id: string)
    | CallPost(post: Payload)
    | CallGetAllJobs
    | CallPostJob(request: Payload)
    | CallRegisterApiKey(userId: string)
    | CallSearchJobsByPosition(search: string)
    | CallPostJobDislinkt(job: Owned)
    | CallLikePost(reaction: Owned)
    | CallDislikePost(reaction: Owned)
    | CallCommentPost(comment: Owned)

  const Routes: seq<Route> := [
    Route(GET, "/post", "GetAll"),
    Route(GET, "/post/{id}", "Get"),
    Route(POST, "/post", "Create"),
    Route(GET, "/post/job", "GetAllJobs"),
    Route(POST, "/post/job", "CreateJob"),
    Route(POST, "/post/job/apikey", "RegisterApiKey"),
    Route(GET, "/post/job/{search}", "SearchJobsByPosition"),
    Route(POST, "/post/job/dislinkt", "CreateJobDislinkt"),
    Route(POST, "/post/like", "Like"),
    Route(POST, "/post/dislike", "Dislike"),
    Route(POST, "/post/comment", "Comment"),
    Route(POST, "/post/image", "UploadImage")
  ]

  /** Init: twelve registrations, none for the same verb and pattern; the
      process panics exactly when the last one, `/post/image`, fails. */
  method Init(parses: string -> bool) returns (table: seq<Route>, panics: bool)
    ensures panics <==> !parses("/post/image")
    ensures forall r :: r in table <==> r in Routes && parses(r.pattern)
    ensures Distinct(table)
    ensures (forall r :: r in Routes ==> parses(r.pattern)) ==> |table| == 12 && !panics
  {
    RoutesDistinct();
    table, panics := Register(Routes, parses);
    KeptDistinct(Routes, parses);
  }

  lemma RoutesDistinct()
    ensures Distinct(Routes)
  {
  }

  /** What each read handler (`Get`, `GetAll`, `GetAllJobs`,
      `SearchJobsByPosition`) promises; `reply` is the field of the reply it
      marshals. There is no gate, and the field is read before the error is
      looked at, so a backend error aborts. */
  predicate ReadsThrough(h: Handled<Call, Payload>, call: Call, id: Identity, reply: Rpc<Payload>, marshals: bool) {
    && h.identity == id
    && h.call == Some(call)
    && (h.response.Aborted? <==> reply.RpcError?)
    && Conforms(h, ReadPolicy, Facts(None, true, true, Reached(reply), marshals))
    && Echoes(h, reply, StatusOK)
  }

  function GetAll(id: Identity, reply: Rpc<Payload>, marshals: bool): (h: Handled<Call, Payload>)
    ensures ReadsThrough(h, CallGetAll, id, reply, marshals)
  {
    Fetched(CallGetAll, reply, marshals, id)
  }

  function Get(id: Identity, pathId: string, reply: Rpc<Payload>, marshals: bool): (h: Handled<Call, Payload>)
    ensures ReadsThrough(h, CallGet(pathId), id, reply, marshals)
  {
    Fetched(CallGet(pathId), reply, marshals, id)
  }

  function GetAllJobs(id: Identity, reply: Rpc<Payload>, marshals: bool): (h: Handled<Call, Payload>)
    ensures ReadsThrough(h, CallGetAllJobs, id, reply, marshals)
  {
    Fetched(CallGetAllJobs, reply, marshals, id)
  }

  function SearchJobsByPosition(id: Identity, search: string, reply: Rpc<Payload>, marshals: bool): (h: Handled<Call, Payload>)
    ensures ReadsThrough(h, CallSearchJobsByPosition(search), id, reply, marshals)
  {
    Fetched(CallSearchJobsByPosition(search), reply, marshals, id)
  }

  /** CreateJob: no token gate; decode failure is 500; forwarded as decoded. */
  function CreateJob(id: Identity, body: Decode<Payload>, reply: Rpc<Payload>, marshals: bool): (h: Handled<Call, Payload>)
    ensures h.identity == id && h.response.Written?
    ensures h.call.Some? <==> body.Decoded?
    ensures h.call.Some? ==> h.call.value == CallPostJob(body.value)
    ensures Conforms(h, UngatedDecodePolicy, Facts(None, body.Decoded?, true, Reached(reply), marshals))
    ensures Echoes(h, reply, StatusOK)
  {
    match body
    case Malformed => Handled(Bare(StatusInternalServerError), None, id)
    case Decoded(request) => Forwarded(CallPostJob(request), reply, marshals, id)
  }

  /** Create: gated; decode failure is 500; the post is forwarded as decoded,
      with no ownership check against the caller. */
  function Create(id: Identity, token: Token, body: Decode<Payload>, reply: Rpc<Payload>, marshals: bool): (h: Handled<Call, Payload>)
    ensures h.identity == JWTValid(token, id).identity && h.response.Written?
    ensures h.call.Some? <==> Verify(token).Success? && body.Decoded?
    ensures h.call.Some? ==> h.call.value == CallPost(body.value)
    ensures Conforms(h, GatedDecodePolicy, Facts(Denial(JWTValid(token, id)), body.Decoded?, true, Reached(reply), marshals))
    ensures Echoes(h, reply, StatusOK)
  {
    var g := JWTValid(token, id);
    if !g.passed then Refused(g)
    else
      match body
      case Malformed => Handled(Bare(StatusInternalServerError), None, g.identity)
      case Decoded(post) => Forwarded(CallPost(post), reply, marshals, g.identity)
  }

  /** RegisterApiKey: gated, no body; the key is requested for the caller's
      own id. */
  function RegisterApiKey(id: Identity, token: Token, reply: Rpc<Payload>, marshals: bool): (h: Handled<Call, Payload>)
    ensures h.identity == JWTValid(token, id).identity && h.response.Written?
    ensures h.call.Some? <==> Verify(token).Success?
    ensures h.call.Some? ==> h.call.value == CallRegisterApiKey(Verify(token).value.id)
    ensures Conforms(h, GatedPolicy, Facts(Denial(JWTValid(token, id)), true, true, Reached(reply), marshals))
    ensures Echoes(h, reply, StatusOK)
  {
    var g := JWTValid(token, id);
    if !g.passed then Refused(g)
    else Forwarded(CallRegisterApiKey(g.identity.id), reply, marshals, g.identity)
  }

  /** The four handlers that stamp the caller's identity into the decoded
      message. Their decode target is a pointer, so a JSON `null` body
      decodes without error to a nil message, and writing its field aborts. */
  datatype Stamping = Likes | Dislikes | Comments | Jobs

  function StampingCall(s: Stamping, m: Owned): Call {
    match s
    case Likes => CallLikePost(m)
    case Dislikes => CallDislikePost(m)
    case Comments => CallCommentPost(m)
    case Jobs => CallPostJobDislinkt(m)
  }

  /** Reactions and comments carry the caller's username, a job its id. */
  function Stamp(s: Stamping, caller: Claims): string {
    if s == Jobs then caller.id else caller.username
  }

  /** What each stamping handler promises: gated; decode failure is 500; the
      forwarded message is the decoded one with its owner field replaced by
      the request's own token's username (or id, for a job), whatever the
      body said. */
  predicate StampsCaller(h: Handled<Call, Payload>, s: Stamping, id: Identity, token: Token,
                         body: Decode<Option<Owned>>, reply: Rpc<Payload>, marshals: bool) {
    && h.identity == JWTValid(token, id).identity
    && (h.response.Aborted? <==> Verify(token).Success? && body.Decoded? && body.value.None?)
    && Conforms(h, GatedDecodePolicy, Facts(Denial(JWTValid(token, id)), body.Decoded?, true, Reached(reply), marshals))
    && (h.call.Some? <==> Verify(token).Success? && body.Decoded? && body.value.Some?)
    && (h.call.Some? ==>
          h.call.value == StampingCall(s, body.value.value.(owner := Stamp(s, Verify(token).value))))
    && Echoes(h, reply, StatusOK)
  }

  function Stamped(s: Stamping, id: Identity, token: Token, body: Decode<Option<Owned>>,
                   reply: Rpc<Payload>, marshals: bool): Handled<Call, Payload> {
    var g := JWTValid(token, id);
    if !g.passed then Refused(g)
    else
      match body
      case Malformed => Handled(Bare(StatusInternalServerError), None, g.identity)
      case Decoded(None) => Handled(Aborted, None, g.identity)
      case Decoded(Some(m)) =>
        var owner := if s == Jobs then g.identity.id else g.identity.username;
        Forwarded(StampingCall(s, m.(owner := owner)), reply, marshals, g.identity)
  }

  function CreateJobDislinkt(id: Identity, token: Token, body: Decode<Option<Owned>>,
                             reply: Rpc<Payload>, marshals: bool): (h: Handled<Call, Payload>)
    ensures StampsCaller(h, Jobs, id, token, body, reply, marshals)
  {
    Stamped(Jobs, id, token, body, reply, marshals)
  }

  function Like(id: Identity, token: Token, body: Decode<Option<Owned>>,
                reply: Rpc<Payload>, marshals: bool): (h: Handled<Call, Payload>)
    ensures StampsCaller(h, Likes, id, token, body, reply, marshals)
  {
    Stamped(Likes, id, token, body, reply, marshals)
  }

  function Dislike(id: Identity, token: Token, body: Decode<Option<Owned>>,
                   reply: Rpc<Payload>, marshals: bool): (h: Handled<Call, Payload>)
    ensures StampsCaller(h, Dislikes, id, token, body, reply, marshals)
  {
    Stamped(Dislikes, id, token, body, reply, marshals)
  }

  function Comment(id: Identity, token: Token, body: Decode<Option<Owned>>,
                   reply: Rpc<Payload>, marshals: bool): (h: Handled<Call, Payload>)
    ensures StampsCaller(h, Comments, id, token, body, reply, marshals)
  {
    Stamped(Comments, id, token, body, reply, marshals)
  }

  /** A caller cannot react, comment or post a job in someone else's name:
      two requests with the same token and messages that differ only in the
      owner field are forwarded identically. */
  lemma OwnerFieldIgnored(s: Stamping, id: Identity, token: Token, m: Owned, n: Owned,
                          reply: Rpc<Payload>, marshals: bool)
    requires m.rest == n.rest
    ensures Stamped(s, id, token, Decoded(Some(m)), reply, marshals)
         == Stamped(s, id, token, Decoded(Some(n)), reply, marshals)
  {
  }
}
