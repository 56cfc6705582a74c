/** A reference for every handler: the uniform early-return pipeline
    (optional token gate, body decode, ownership check, backend call, reply
    check, marshal, write), parameterised by the few facts that differ from
    one endpoint to the next. Every handler except `Refresh`, whose contract
    states its status, `Location`, content type and absence of a call
    directly, is proved to follow it whenever it writes a response; when a
    handler aborts instead is stated in its own contract. */
module Pipeline {
  import opened Outcomes
  import opened Jwt
  import opened Http

  /** How one endpoint instantiates the pipeline. */
  datatype Policy = Policy(
    gated: bool,                // starts with JWTValid
    decodeFailure: Option<int>, // status for an undecodable body; None: no body is read
    ownership: bool,            // compares a request-supplied id against the caller's id
    unreachable: int,           // status when the backend call returns an error
    rejection: Option<int>,     // status when the reply is a refusal; None: never inspected
    encodeFailure: Option<int>, // status when marshalling fails; None: nothing is marshalled
    success: int)               // status of the happy path

  /** How the backend call went, as far as the handler can tell. */
  datatype Upstream = Unreachable | Rejected | Accepted

  /** What each stage observed on one request. `denied` is the status the
      gate answered with, `None` when it passed. */
  datatype Facts = Facts(denied: Option<int>, decoded: bool, owner: bool, upstream: Upstream, encoded: bool)

  /** The observable outcome: the status sent and whether the backend was called. */
  datatype Verdict = Verdict(status: int, called: bool)

  /** The gate's part of the facts. */
  function Denial(g: Gate): Option<int> {
    if g.passed || |g.statuses| == 0 then None else Some(g.statuses[0])
  }

  /** The pipeline's outcome. The backend is called exactly when every stage
      in front of it passes, and a refused request is answered by the first
      stage that refused it. */
  function Expected(p: Policy, f: Facts): (v: Verdict)
    ensures v.called <==>
              (!p.gated || f.denied.None?) && (p.decodeFailure.None? || f.decoded) && (!p.ownership || f.owner)
    ensures p.gated && f.denied.Some? ==> v.status == f.denied.value
    ensures v.called && f.upstream == Unreachable ==> v.status == p.unreachable
  {
    if p.gated && f.denied.Some? then Verdict(f.denied.value, false)
    else if p.decodeFailure.Some? && !f.decoded then Verdict(p.decodeFailure.value, false)
    else if p.ownership && !f.owner then Verdict(StatusUnauthorized, false)
    else if f.upstream == Unreachable then Verdict(p.unreachable, true)
    else if p.rejection.Some? && f.upstream == Rejected then Verdict(p.rejection.value, true)
    else if p.encodeFailure.Some? && !f.encoded then Verdict(p.encodeFailure.value, true)
    else Verdict(p.success, true)
  }

  /** Policies shared by several endpoints. */

  /** Read-only: no gate, no body; marshal failure is 500. The read handlers
      that use it abort on a backend error, so its `unreachable` status is
      never sent by them; it is 500 for the policies built from it. */
  const ReadPolicy := Policy(
    gated := false, decodeFailure := None, ownership := false,
    unreachable := StatusInternalServerError, rejection := None,
    encodeFailure := Some(StatusInternalServerError), success := StatusOK)

  /** A body decoded without a gate; a decode failure is 500 as well. */
  const UngatedDecodePolicy := Policy(
    gated := false, decodeFailure := Some(StatusInternalServerError), ownership := false,
    unreachable := StatusInternalServerError, rejection := None,
    encodeFailure := Some(StatusInternalServerError), success := StatusOK)

  /** A gate, no body, no ownership check. */
  const GatedPolicy := Policy(
    gated := true, decodeFailure := None, ownership := false,
    unreachable := StatusInternalServerError, rejection := None,
    encodeFailure := Some(StatusInternalServerError), success := StatusOK)

  /** A gate, then a body whose decode failure is 500; no ownership check. */
  const GatedDecodePolicy := Policy(
    gated := true, decodeFailure := Some(StatusInternalServerError), ownership := false,
    unreachable := StatusInternalServerError, rejection := None,
    encodeFailure := Some(StatusInternalServerError), success := StatusOK)

  /** What a written response shows of the pipeline. */
  function Observed<C, T>(h: Handled<C, T>): Verdict
    requires h.response.Written?
  {
    Verdict(Sent(h.response), h.call.Some?)
  }

  /** A handled request that wrote a response conforms to policy `p` on facts
      `f`: it wrote exactly one status, and that status and the presence of a
      backend call are what the pipeline prescribes. */
  predicate Conforms<C, T>(h: Handled<C, T>, p: Policy, f: Facts) {
    h.response.Written? ==> |h.response.statuses| == 1 && Observed(h) == Expected(p, f)
  }

  /** On the happy path, answered with `success`, the backend's reply itself
      is the JSON body. */
  predicate Echoes<C, T(==)>(h: Handled<C, T>, reply: Rpc<T>, success: int) {
    h.response.Written? && Sent(h.response) == success ==>
      reply.Replied? && h.response.contentType == Some(ApplicationJson) && h.response.body == Some(reply.reply)
  }

  /** How a call returning only a reply with no verdict in it went. */
  function Reached<R>(reply: Rpc<R>): Upstream {
    if reply.RpcError? then Unreachable else Accepted
  }
}
