# Request decisions of the Dislinkt API gateway

The API gateway answers JSON-over-HTTP requests from the browser and turns them into gRPC calls on the profile, post and connection services. For login and token refresh it redirects the browser to the authentication service; it makes no gRPC call to that service. This project models the part of the gateway that decides things:

- the token gate `JWTValid`, and the two process-global variables `LoggedUserUsername` and `LoggedUserId` that it sets;
- every handler of the connection, profile, post and auth handlers, as an early-return chain: optional gate, body decode, ownership check against the globals, backend call, reply check, marshal, write;
- each handler file's `Init` route table.

Every library call becomes an input value:

- the cookie lookup and the token parse (`Jwt.Token`);
- the JSON decode of the body (`Outcomes.Decode`);
- the gRPC reply or error (`Outcomes.Rpc`);
- whether `json.Marshal` succeeds (`marshals`);
- whether `ServeMux.HandlePath` can parse a pattern (`parses`).

Each handler is a pure function of those inputs and the current globals. It returns a `Http.Handled` value with three parts:

- `response`: the `WriteHeader` calls in order, the `Content-Type` and `Location` headers, and the value marshalled as the body. `Aborted` stands for a nil-pointer panic, which net/http recovers by dropping the connection.
- `call`: the one backend RPC made, if any, with its exact argument.
- `identity`: the globals afterwards.

Modules:

- `Outcomes`: the outcome datatypes.
- `Jwt`: `JWTValid`, the identity globals, and a result-returning `Verify`. `JWTValid` is proved to pass exactly when `Verify` succeeds; it then publishes the verified claims, and otherwise writes only the `Challenge` status of `Verify`'s error.
- `Http`: status codes, responses, routes, and the `Register` loop shared by every `Init`.
- `Pipeline`: the uniform handler pipeline as a reference. Each endpoint fills in a `Policy`: which stages it has and which status each failing stage answers with. Every handler except `Refresh`, whose contract states its status, `Location`, content type and absence of a call directly, is proved to `Conforms` to its policy whenever it writes a response: exactly one status is written, and the status and the presence of a backend call are what the pipeline prescribes. When a handler aborts instead is stated separately in its own contract.
- `ConnectionHandler`, `ProfileHandler`, `PostHandler`, `AuthHandler`: one module per handler file.
- `Session`: the globals as sequential state over a run of requests.

Ownership conditions are stated against the request's own token (`Jwt.IsSubject`), not against the globals. This shows that in a sequential run every ownership check compares against the caller's own claims.

## Model

| member | source | states |
|---|---|---|
| Jwt.JWTValid | infrastructure/services/jwt_check.go:22-59 | no cookie is 401 and any other cookie error 400; a signature error is 401 and any other parse error 400; a parsed but invalid token is 401. Each of these writes exactly one status and leaves the globals unchanged. On success nothing is written and the globals become the token's username and id. |
| Jwt.JWTValidIsVerify | infrastructure/services/jwt_check.go:22-59 | JWTValid passes exactly when the result-returning verifier succeeds. It then publishes the verified claims; otherwise it writes only the status of the verifier's refusal (400 for a malformed credential, 401 for the rest). |
| Http.Kept | infrastructure/api/post_handler.go:27-39 | the routes registered are those of the list whose pattern parses, in call order. Nothing else is registered, and with all patterns parsing it is the whole list. |
| Http.Register | infrastructure/api/connection_handler.go:23-35 | the `err`-overwriting registration loop panics exactly when the LAST pattern fails to parse. Earlier failures are dropped silently. The table is the routes that parsed, in call order. |
| Http.KeptDistinct | infrastructure/api/post_handler.go:27-39 | dropping unparsable routes never makes two registrations share a verb and pattern |
| Pipeline.Expected | infrastructure/api/connection_handler.go:59-90 | in the reference pipeline the backend is called exactly when every stage in front of it passes. A gate refusal answers with the gate's status, and a backend error with the endpoint's error status. |
| ConnectionHandler.Init | infrastructure/api/connection_handler.go:23-35 | seven routes, no two with the same verb and pattern. The process panics iff `/connection/block` fails to register. |
| ConnectionHandler.RoutesDistinct | infrastructure/api/connection_handler.go:24-30 | no two connection routes share a verb and pattern |
| ConnectionHandler.InsertUser | infrastructure/api/connection_handler.go:37-57 | no gate, and the globals are unchanged. Decode failure is 400 with no call, backend error 500, `Success == false` 400, else 200. The decoded user is forwarded unchanged. |
| ConnectionHandler.MakeConnectionWithPublicProfile | infrastructure/api/connection_handler.go:59-90 | a failed gate means no call. Decode failure is 400 with no call. A sender other than the token's subject is 401 with no call. Backend error is 500, `Success == false` 400, else 200 with a JSON content type. The body is forwarded unchanged. |
| ConnectionHandler.MakeConnectionRequest | infrastructure/api/connection_handler.go:92-124 | same chain and statuses as above, calling `MakeConnectionRequest`, and 200 carries a JSON content type |
| ConnectionHandler.ApproveConnectionRequest | infrastructure/api/connection_handler.go:126-156 | same chain and statuses, calling `ApproveConnectionRequest`; no content type is set |
| ConnectionHandler.BlockConnection | infrastructure/api/connection_handler.go:158-188 | same chain and statuses, calling `BlockConnection`; no content type is set |
| ConnectionHandler.GetConnectionsUsernamesFor | infrastructure/api/connection_handler.go:190-219 | gated. A path id other than the token's subject is 401 with no call. The backend error is never checked, so the nil reply aborts. A nil `Usernames` is sent as an empty list. A marshal failure is 400. |
| ConnectionHandler.GetRequestsUsernamesFor | infrastructure/api/connection_handler.go:221-250 | the same, calling `GetRequestsUsernamesFor` |
| ProfileHandler.Init | infrastructure/api/profile_handler.go:24-35 | five routes, none for the message handlers. The process panics iff `/profile/search/{name}` fails. |
| ProfileHandler.RoutesDistinct | infrastructure/api/profile_handler.go:25-29 | no two profile routes share a verb and pattern |
| ProfileHandler.Get | infrastructure/api/profile_handler.go:37-62 | no gate, and the backend is always asked for the path id. Error is 500; a profile with an empty id is 400; a marshal failure is 500. Otherwise 200 with the profile as JSON, and only a profile with an id is ever returned. |
| ProfileHandler.GetAll | infrastructure/api/profile_handler.go:82-108 | no gate (it is commented out). A backend error aborts, because `Profiles` is read before the error. A nil list is marshalled as-is. A marshal failure is 500. |
| ProfileHandler.Create | infrastructure/api/profile_handler.go:123-145 | no gate. Decode failure is 500 with no call. Backend error and marshal failure are 500. Otherwise 200 with the reply. |
| ProfileHandler.Update | infrastructure/api/profile_handler.go:172-207 | a failed gate means no call, and decode failure is 500. The body's id is replaced by the path id, and a path id other than the token's subject is 401 with no call. Otherwise exactly one `Update` call, then 500 or 200 with the reply as JSON. |
| ProfileHandler.UpdateByOwner | infrastructure/api/profile_handler.go:184-206 | an owner's well-formed update makes one `Update` call carrying the path id, answers 200 with the backend's reply as the JSON body, and publishes the caller's claims |
| ProfileHandler.UpdateIgnoresBodyId | infrastructure/api/profile_handler.go:176-189 | the id inside the body never affects the outcome |
| ProfileHandler.GetByName | infrastructure/api/profile_handler.go:209-227 | no gate; forwards the path name. Backend error and marshal failure are 500, else 200 with the reply. |
| ProfileHandler.SendMessage | infrastructure/api/profile_handler.go:147-170 | not routed. Decode failure, backend error and marshal failure are 500; success is 201 with the reply. |
| ProfileHandler.GetChatMessages | infrastructure/api/profile_handler.go:63-80 | not routed. A backend error aborts, because `Messages` is read first. A marshal failure is 500, else 200 with the messages. |
| PostHandler.Init | infrastructure/api/post_handler.go:27-43 | twelve routes, no two with the same verb and pattern. The process panics iff `/post/image` fails. |
| PostHandler.RoutesDistinct | infrastructure/api/post_handler.go:28-39 | no two post routes share a verb and pattern |
| PostHandler.GetAll | infrastructure/api/post_handler.go:173-189 | no gate, and the globals are unchanged. A backend error aborts, because the field is read before the error. A marshal failure is 500, else 200 with the posts. |
| PostHandler.Get | infrastructure/api/post_handler.go:155-171 | the same for the path id's post |
| PostHandler.GetAllJobs | infrastructure/api/post_handler.go:137-153 | the same for all jobs |
| PostHandler.SearchJobsByPosition | infrastructure/api/post_handler.go:73-89 | the same for the path's search string |
| PostHandler.CreateJob | infrastructure/api/post_handler.go:113-135 | no gate. Decode failure is 500 with no call. The request is forwarded unchanged. Backend error and marshal failure are 500. |
| PostHandler.Create | infrastructure/api/post_handler.go:191-217 | a failed gate means no call. Decode failure is 500 with no call. The post is forwarded unchanged. Backend error and marshal failure are 500, else 200 with the reply as JSON. |
| PostHandler.RegisterApiKey | infrastructure/api/post_handler.go:91-111 | a failed gate means no call. Otherwise the key is requested for the token's own subject id. Errors are 500, else 200 with the reply. |
| PostHandler.CreateJobDislinkt | infrastructure/api/post_handler.go:45-71 | a failed gate means no call, and decode failure is 500. A JSON `null` body aborts. The job is forwarded with `UserId` set to the token's own subject id. |
| PostHandler.Like | infrastructure/api/post_handler.go:219-245 | a failed gate means no call, and decode failure is 500. A `null` body aborts. The reaction is forwarded with `Username` set to the token's own username. Backend error and marshal failure are 500. |
| PostHandler.Dislike | infrastructure/api/post_handler.go:247-273 | the same, calling `DislikePost` |
| PostHandler.Comment | infrastructure/api/post_handler.go:275-301 | the same for a comment, calling `CommentPost` |
| PostHandler.OwnerFieldIgnored | infrastructure/api/post_handler.go:223-230 | whatever owner the body names, the outcome is the same, so nobody can react, comment or post a job in another's name |
| AuthHandler.Init | infrastructure/api/auth_handler.go:26-32 | exactly `POST /login` and `GET /refresh`. The process panics iff the second fails. |
| AuthHandler.Login | infrastructure/api/auth_handler.go:34-51 | no gate, and the globals are unchanged. Decode failure is 400 with no call. The credential lookup uses the submitted username. A backend error or a mismatch of either field is 400 with no redirect. A 307 redirect to `http://<auth address>/login` is sent exactly when the stored credentials equal the submitted ones. |
| AuthHandler.WrongPasswordRefused | infrastructure/api/auth_handler.go:45-48 | logging in as alice with the wrong password is 400 and sets no `Location` |
| AuthHandler.Refresh | infrastructure/api/auth_handler.go:53-55 | always a 307 redirect to `http://<auth address>/refresh` with an HTML content type, no backend call and no gate |
| Session.RunKeepsLastVerified | infrastructure/services/jwt_check.go:52-58 | after any sequence of requests the globals hold the claims of the last request whose gate passed, or their starting value. A request that fails the gate, or has none, leaves the previous caller's identity behind. |
| Session.FromStartup | infrastructure/services/jwt_check.go:12-58 | both globals start as the empty string and stay so until some gate passes; after that they hold the claims of the last request whose gate passed |
| Session.GatedSeesOwnClaims | infrastructure/services/jwt_check.go:55-58 | after a passing gate the globals are the request's own claims, whatever they held before |

## Left out

- Concurrency. Requests are served one at a time. The cross-request identity leak between concurrent requests through the shared globals is not modelled; `Session` shows only the sequential carry-over.
- The "Updated upstream" side of the merge conflict in `jwt_check.go`. It is the single `loggedUser` variable; the handlers read the two variables of the other side.
- Signature and expiry checking inside jwt-go. It is reduced to the three parse outcomes. Whether jwt-go hands back the bare `ErrSignatureInvalid` value or a wrapping error, and whether an expired token arrives as an error or as `Valid == false`, is library behaviour outside this model.
- JSON encoding and decoding. Decoding is an outcome value. Marshalling is treated as the identity on the marshalled value, with a flag for failure.
- `ServeMux` path matching and dispatch. Only the registered route lists are modelled. `HandlePath` is reduced to whether it can parse a pattern, and a pattern it cannot parse registers nothing. The two GET patterns `/post/{id}` and `/post/job` can both match `/post/job`; which one wins is up to the library.
- `UploadImage`: multipart parsing and filesystem writes. Only its route is modelled.
- Backend client construction in `infrastructure/services/client.go`: gRPC dialing and `log.Fatalf`. That file does not compile as written; it is not part of this model. So is startup wiring in `startup/server.go` and `startup/config/config.go`.
- `addProfiles` and `addMessages` exist only as part of `GetAll` and `GetChatMessages`. Their ignored error return is not a separate member.
- `Login`, `Refresh`: the `Location` is the URL as built. Go's escaping of non-ASCII bytes in it is not modelled, and neither is the small HTML body `http.Redirect` writes for a GET.
- Refresh: the contract states the status, `Location`, content type and absence of a call, but not the HTML body described above.
- Nil dereferences have no status. A gRPC reply is nil on error, and reading a field of it first panics. A JSON `null` decoded into a pointer target leaves it nil, and writing its field panics. Both appear as `Aborted`; the recovered panic's logging and connection close are not modelled.

## Kept as written

Behaviour of the code that the model keeps as written:

- the caller's identity lives in two process-wide variables, not in the request (`infrastructure/services/jwt_check.go:12-13`, set at lines 55-56);
- an ownership mismatch answers 401 (`infrastructure/api/connection_handler.go:73`, `infrastructure/api/profile_handler.go:187`);
- creation answers 200 (`infrastructure/api/post_handler.go:215`, `infrastructure/api/profile_handler.go:143`); only `SendMessage`, which has no route, answers 201 (`infrastructure/api/profile_handler.go:168`);
- several decode failures answer 500, not 400 (`infrastructure/api/post_handler.go:52`, `:117`, `:199`, `:226`);
- no route serves blocked usernames (`infrastructure/api/connection_handler.go:24-30`);
- overlapping patterns are registered without complaint: `GET /post/{id}` and `GET /post/job` both match `/post/job` (`infrastructure/api/post_handler.go:29`, `:31`).
