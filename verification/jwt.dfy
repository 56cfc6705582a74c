/** The token gate (`JWTValid`) and the process-wide identity it publishes.
    Signature and expiry checking happen inside jwt-go; here they appear
    only as the outcome `TokenParse` that the parse reports. */
module Jwt {
  import opened Outcomes

  const StatusBadRequest := 400
  const StatusUnauthorized := 401

  /** The two process-global variables `LoggedUserUsername` and
      `LoggedUserId`: the identity of the last request whose token passed. */
  datatype Identity = Identity(username: string, id: string)

  /** Both globals start out as the empty string. */
  const Initial := Identity("", "")

  /** The custom claims of the token; the standard claims (expiry and the
      like) are judged by jwt-go and show up only in `Parsed.valid`. */
  datatype Claims = Claims(id: string, username: string)

  /** What `r.Cookie("token")` returned. */
  datatype CookieLookup =
    | NoCookie            // http.ErrNoCookie
    | CookieError         // any other error
    | Cookie(value: string)

  /** What `jwt.ParseWithClaims` reported for the cookie's value. */
  datatype TokenParse =
    | SignatureInvalid    // the error is jwt.ErrSignatureInvalid
    | ParseError          // any other error
    | Parsed(valid: bool, claims: Claims)

  /** Everything the request's token contributes: the cookie lookup, and what
      the parse reports for its value (consulted only when the cookie exists). */
  datatype Token = Token(cookie: CookieLookup, parse: TokenParse)

  /** The gate's verdict, the statuses it wrote and the globals afterwards. */
  datatype Gate = Gate(passed: bool, statuses: seq<int>, identity: Identity)

  function FromClaims(c: Claims): Identity {
    Identity(c.username, c.id)
  }

  /** JWTValid: on every failure exactly one status is written and the globals
      are untouched; on success nothing is written and the globals take the
      token's claims. */
  function JWTValid(token: Token, current: Identity): (g: Gate)
    ensures token.cookie.NoCookie? ==> !g.passed && g.statuses == [StatusUnauthorized]
    ensures token.cookie.CookieError? ==> !g.passed && g.statuses == [StatusBadRequest]
    ensures token.cookie.Cookie? && token.parse.SignatureInvalid? ==>
              !g.passed && g.statuses == [StatusUnauthorized]
    ensures token.cookie.Cookie? && token.parse.ParseError? ==>
              !g.passed && g.statuses == [StatusBadRequest]
    ensures token.cookie.Cookie? && token.parse.Parsed? && !token.parse.valid ==>
              !g.passed && g.statuses == [StatusUnauthorized]
    ensures g.passed <==> token.cookie.Cookie? && token.parse.Parsed? && token.parse.valid
    ensures g.passed ==> g.statuses == [] && g.identity == FromClaims(token.parse.claims)
    ensures !g.passed ==> |g.statuses| == 1 && g.identity == current
  {
    match token.cookie
    case NoCookie => Gate(false, [StatusUnauthorized], current)
    case CookieError => Gate(false, [StatusBadRequest], current)
    case Cookie(_) =>
      match token.parse
      case SignatureInvalid => Gate(false, [StatusUnauthorized], current)
      case ParseError => Gate(false, [StatusBadRequest], current)
      case Parsed(valid, claims) =>
        if !valid then Gate(false, [StatusUnauthorized], current)
        else Gate(true, [], FromClaims(claims))
  }

  /** The failure classes of a token verifier that returns a result instead
      of writing to the response. */
  datatype AuthError = MissingCredential | MalformedCredential | InvalidSignature | ExpiredOrInvalid

  /** The token verifier as a result-returning function: the claims, or why
      the token was refused. Any cookie error other than "no cookie" counts as
      a malformed credential. */
  function Verify(token: Token): Result<Claims, AuthError> {
    match token.cookie
    case NoCookie => Failure(MissingCredential)
    case CookieError => Failure(MalformedCredential)
    case Cookie(_) =>
      match token.parse
      case SignatureInvalid => Failure(InvalidSignature)
      case ParseError => Failure(MalformedCredential)
      case Parsed(valid, claims) => if valid then Success(claims) else Failure(ExpiredOrInvalid)
  }

  /** The status each refusal is answered with: 400 for a malformed
      credential, 401 for everything else. */
  function Challenge(e: AuthError): int {
    if e == MalformedCredential then StatusBadRequest else StatusUnauthorized
  }

  /** `subject` is the id the request's own token verifiably carries. */
  predicate IsSubject(token: Token, subject: string) {
    Verify(token).Success? && subject == Verify(token).value.id
  }

  /** JWTValid is the result-returning verifier plus its side effects: it
      passes exactly when Verify succeeds, publishes the verified claims, and
      otherwise writes the status of Verify's refusal and nothing else. */
  lemma JWTValidIsVerify(token: Token, current: Identity)
    ensures JWTValid(token, current).passed <==> Verify(token).Success?
    ensures Verify(token).Success? ==>
              JWTValid(token, current) == Gate(true, [], FromClaims(Verify(token).value))
    ensures Verify(token).Failure? ==>
              JWTValid(token, current) == Gate(false, [Challenge(Verify(token).error)], current)
  {
  }
}
