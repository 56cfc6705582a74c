/** The profile service's HTTP handlers and their route table. */
module ProfileHandler {
  import opened Outcomes
  import opened Jwt
  import opened Http
  import opened Pipeline

  /** `profile.Profile`: its id, and the rest. An empty id is the backend's
      "not found". */
  datatype Profile = Profile(id: string, rest: Fields)

  /** The reply of `GetAll`; `None` is a nil `Profiles` slice. */
  datatype ProfilesReply = ProfilesReply(profiles: Option<seq<Profile>>)

  /** The reply of `GetChatMessages`; `None` is a nil `Messages` slice. */
  datatype MessagesReply = MessagesReply(messages: Option<seq<Payload>>)

  /** The profile-service RPC a handler invoked, with its argument. */
  datatype Call =
    | CallGet(id: string)
    | CallGetAll
    | CallCreate(newProfile: Payload)
    | CallUpdate(profile: Profile)
    | CallGetByName(name: string)
    | CallSendMessage(message: Payload)
    | CallGetChatMessages(senderId: string, receiverId: string)

  /** The two message routes are commented out, so `SendMessage` and
      `GetChatMessages` are never reachable. */
  const Routes: seq<Route> := [
    Route(GET, "/profile", "GetAll"),
    Route(GET, "/profile/{id}", "Get"),
    Route(POST, "/profile", "Create"),
    Route(PUT, "/profile/{id}", "Update"),
    Route(GET, "/profile/search/{name}", "GetByName")
  ]

  /** Init: five registrations, none for the same verb and pattern, and none
      for the message handlers; the process panics exactly when the last one,
      `/profile/search/{name}`, fails. */
  method Init(parses: string -> bool) returns (table: seq<Route>, panics: bool)
    ensures panics <==> !parses("/profile/search/{name}")
    ensures forall r :: r in table <==> r in Routes && parses(r.pattern)
    ensures Distinct(table)
    ensures forall r :: r in table ==> r.handler != "SendMessage" && r.handler != "GetChatMessages"
    ensures (forall r :: r in Routes ==> parses(r.pattern)) ==> |table| == 5 && !panics
  {
    RoutesDistinct();
    table, panics := Register(Routes, parses);
    KeptDistinct(Routes, parses);
  }

  lemma RoutesDistinct()
    ensures Distinct(Routes)
  {
  }

  /** How `Get` went: an empty id in the reply is a refusal. */
  function Found(reply: Rpc<Profile>): Upstream {
    match reply
    case RpcError => Unreachable
    case Replied(p) => if p.id == "" then Rejected else Accepted
  }

  const GetPolicy := Policy(
    gated := false, decodeFailure := None, ownership := false,
    unreachable := StatusInternalServerError, rejection := Some(StatusBadRequest),
    encodeFailure := Some(StatusInternalServerError), success := StatusOK)

  /** Get: no token gate; the backend is always asked for the path's id; a
      profile with an empty id is answered 400, and only a profile with an
      id is ever sent back. */
  function Get(id: Identity, pathId: string, reply: Rpc<Profile>, marshals: bool): (h: Handled<Call, Profile>)
    ensures h.identity == id && h.response.Written?
    ensures h.call == Some(CallGet(pathId))
    ensures Conforms(h, GetPolicy, Facts(None, true, true, Found(reply), marshals))
    ensures Echoes(h, reply, StatusOK)
    ensures h.response.body.Some? ==> h.response.body.value.id != ""
  {
    var call := CallGet(pathId);
    match reply
    case RpcError => Handled(Bare(StatusInternalServerError), Some(call), id)
    case Replied(p) =>
      if p.id == "" then Handled(Bare(StatusBadRequest), Some(call), id)
      else Forwarded(call, reply, marshals, id)
  }

  /** GetAll: no token gate (it is commented out). `addProfiles` reads
      `Profiles` before looking at the error, so a backend error aborts; its
      returned error is ignored anyway. A nil slice is marshalled as-is. */
  function GetAll(id: Identity, reply: Rpc<ProfilesReply>, marshals: bool): (h: Handled<Call, Option<seq<Profile>>>)
    ensures h.identity == id && h.call == Some(CallGetAll)
    ensures h.response.Aborted? <==> reply.RpcError?
    ensures Conforms(h, ReadPolicy, Facts(None, true, true, Reached(reply), marshals))
    ensures h.response.Written? && Sent(h.response) == StatusOK ==>
              reply.Replied? && h.response.contentType == Some(ApplicationJson)
              && h.response.body == Some(reply.reply.profiles)
  {
    var profiles := match reply case RpcError => RpcError case Replied(r) => Replied(r.profiles);
    Fetched(CallGetAll, profiles, marshals, id)
  }

  /** Create: no token gate; an undecodable body is 500 and is not forwarded. */
  function Create(id: Identity, body: Decode<Payload>, reply: Rpc<Payload>, marshals: bool): (h: Handled<Call, Payload>)
    ensures h.identity == id && h.response.Written?
    ensures h.call.Some? <==> body.Decoded?
    ensures h.call.Some? ==> h.call.value == CallCreate(body.value)
    ensures Conforms(h, UngatedDecodePolicy, Facts(None, body.Decoded?, true, Reached(reply), marshals))
    ensures Echoes(h, reply, StatusOK)
  {
    match body
    case Malformed => Handled(Bare(StatusInternalServerError), None, id)
    case Decoded(newProfile) => Forwarded(CallCreate(newProfile), reply, marshals, id)
  }

  const UpdatePolicy := Policy(
    gated := true, decodeFailure := Some(StatusInternalServerError), ownership := true,
    unreachable := StatusInternalServerError, rejection := None,
    encodeFailure := Some(StatusInternalServerError), success := StatusOK)

  /** Update: gated; decode failure is 500; the body's own id is replaced by
      the path's, and only the token's own subject may be updated; the one
      backend call carries the decoded profile under the path's id. */
  function Update(id: Identity, token: Token, pathId: string, body: Decode<Profile>,
                  reply: Rpc<Payload>, marshals: bool): (h: Handled<Call, Payload>)
    ensures h.identity == JWTValid(token, id).identity && h.response.Written?
    ensures Conforms(h, UpdatePolicy,
                     Facts(Denial(JWTValid(token, id)), body.Decoded?, IsSubject(token, pathId), Reached(reply), marshals))
    ensures h.call.Some? <==> IsSubject(token, pathId) && body.Decoded?
    ensures h.call.Some? ==> h.call.value == CallUpdate(body.value.(id := pathId))
    ensures Echoes(h, reply, StatusOK)
  {
    var g := JWTValid(token, id);
    if !g.passed then Refused(g)
    else
      match body
      case Malformed => Handled(Bare(StatusInternalServerError), None, g.identity)
      case Decoded(profile) =>
        var request := profile.(id := pathId);
        if request.id != g.identity.id then Handled(Bare(StatusUnauthorized), None, g.identity)
        else Forwarded(CallUpdate(request), reply, marshals, g.identity)
  }

  /** An update by the path's own subject with a well-formed body makes
      exactly one backend update call and answers 200 with the backend's
      profile as its body. */
  lemma UpdateByOwner(id: Identity, token: Token, body: Decode<Profile>, reply: Rpc<Payload>)
    requires Verify(token).Success? && body.Decoded? && reply.Replied?
    ensures var pathId := Verify(token).value.id;
            Update(id, token, pathId, body, reply, true)
            == Handled(Json(reply.reply), Some(CallUpdate(body.value.(id := pathId))), FromClaims(Verify(token).value))
  {
  }

  /** Whatever id the body carries makes no difference to `Update`. */
  lemma UpdateIgnoresBodyId(id: Identity, token: Token, pathId: string, p: Profile, q: Profile,
                            reply: Rpc<Payload>, marshals: bool)
    requires p.rest == q.rest
    ensures Update(id, token, pathId, Decoded(p), reply, marshals) == Update(id, token, pathId, Decoded(q), reply, marshals)
  {
  }

  /** GetByName: no token gate; the path's `{name}` is forwarded. */
  function GetByName(id: Identity, name: string, reply: Rpc<Payload>, marshals: bool): (h: Handled<Call, Payload>)
    ensures h.identity == id && h.response.Written?
    ensures h.call == Some(CallGetByName(name))
    ensures Conforms(h, ReadPolicy, Facts(None, true, true, Reached(reply), marshals))
    ensures Echoes(h, reply, StatusOK)
  {
    Forwarded(CallGetByName(name), reply, marshals, id)
  }

  const SendMessagePolicy := Policy(
    gated := false, decodeFailure := Some(StatusInternalServerError), ownership := false,
    unreachable := StatusInternalServerError, rejection := None,
    encodeFailure := Some(StatusInternalServerError), success := StatusCreated)

  /** SendMessage (not routed): no gate; the only handler answering 201. */
  function SendMessage(id: Identity, body: Decode<Payload>, reply: Rpc<Payload>, marshals: bool): (h: Handled<Call, Payload>)
    ensures h.identity == id && h.response.Written?
    ensures h.call.Some? <==> body.Decoded?
    ensures h.call.Some? ==> h.call.value == CallSendMessage(body.value)
    ensures Conforms(h, SendMessagePolicy, Facts(None, body.Decoded?, true, Reached(reply), marshals))
    ensures Echoes(h, reply, StatusCreated)
  {
    match body
    case Malformed => Handled(Bare(StatusInternalServerError), None, id)
    case Decoded(message) =>
      var call := Some(CallSendMessage(message));
      match reply
      case RpcError => Handled(Bare(StatusInternalServerError), call, id)
      case Replied(r) =>
        if !marshals then Handled(Bare(StatusInternalServerError), call, id)
        else Handled(Written([StatusCreated], Some(ApplicationJson), None, Some(r)), call, id)
  }

  /** GetChatMessages (not routed): like `GetAll`, `addMessages` reads the
      reply before the error, so a backend error aborts. */
  function GetChatMessages(id: Identity, senderId: string, receiverId: string, reply: Rpc<MessagesReply>,
                           marshals: bool): (h: Handled<Call, Option<seq<Payload>>>)
    ensures h.identity == id && h.call == Some(CallGetChatMessages(senderId, receiverId))
    ensures h.response.Aborted? <==> reply.RpcError?
    ensures Conforms(h, ReadPolicy, Facts(None, true, true, Reached(reply), marshals))
    ensures h.response.Written? && Sent(h.response) == StatusOK ==>
              reply.Replied? && h.response.contentType == Some(ApplicationJson)
              && h.response.body == Some(reply.reply.messages)
  {
    var messages := match reply case RpcError => RpcError case Replied(r) => Replied(r.messages);
    Fetched(CallGetChatMessages(senderId, receiverId), messages, marshals, id)
  }
}
