/** The identity globals as sequential state: requests served one after
    another, each handler either starting with `JWTValid` or not touching the
    globals at all (every handler model states which, in its contract). */
module Session {
  import opened Outcomes
  import opened Jwt

  /** One request as far as the identity globals are concerned: the token of
      a request whose handler starts with the gate, or a request whose
      handler has none. */
  datatype Step = Gated(token: Token) | Ungated

  /** The globals after one request. */
  function After(current: Identity, s: Step): Identity {
    match s
    case Gated(t) => JWTValid(t, current).identity
    case Ungated => current
  }

  /** The globals after serving `steps` in order, starting from `start`. */
  function Run(start: Identity, steps: seq<Step>): Identity
    decreases |steps|
  {
    if |steps| == 0 then start else Run(After(start, steps[0]), steps[1..])
  }

  /** The claims a step's gate verified, if it has a gate and the gate passed. */
  function Passing(s: Step): Option<Claims> {
    if s.Gated? && Verify(s.token).Success? then Some(Verify(s.token).value) else None
  }

  /** The claims verified by the last step whose gate passed. */
  function LastVerified(steps: seq<Step>): Option<Claims>
    decreases |steps|
  {
    if |steps| == 0 then None
    else if Passing(steps[|steps| - 1]).Some? then Passing(steps[|steps| - 1])
    else LastVerified(steps[..|steps| - 1])
  }

  /** `LastVerified` seen from the front: a step is the last verified one
      when nothing after it verified. */
  lemma {:induction false} LastVerifiedCons(s: Step, rest: seq<Step>)
    ensures LastVerified([s] + rest) == if LastVerified(rest).Some? then LastVerified(rest) else Passing(s)
    decreases |rest|
  {
    var all := [s] + rest;
    if |rest| == 0 {
      assert all[..|all| - 1] == [];
    } else {
      var front := rest[..|rest| - 1];
      assert all[|all| - 1] == rest[|rest| - 1];
      assert all[..|all| - 1] == [s] + front;
      LastVerifiedCons(s, front);
    }
  }

  /** The globals always hold the identity of the last request whose token
      passed the gate, or their starting value if none did: every request
      that fails the gate or has none leaves behind whoever came before it. */
  lemma {:induction false} RunKeepsLastVerified(start: Identity, steps: seq<Step>)
    ensures Run(start, steps) == if LastVerified(steps).Some? then FromClaims(LastVerified(steps).value) else start
    decreases |steps|
  {
    if |steps| > 0 {
      var s := steps[0];
      var rest := steps[1..];
      assert steps == [s] + rest;
      RunKeepsLastVerified(After(start, s), rest);
      LastVerifiedCons(s, rest);
    }
  }

  /** From process start, when both globals are empty: until some gate has
      passed, a request that compares an id against the globals compares it
      against the empty string. */
  lemma FromStartup(steps: seq<Step>)
    ensures LastVerified(steps).None? ==> Run(Initial, steps) == Initial
    ensures LastVerified(steps).Some? ==> Run(Initial, steps) == FromClaims(LastVerified(steps).value)
  {
    RunKeepsLastVerified(Initial, steps);
  }

  /** A request whose gate passes compares against its own claims, whatever
      earlier requests left in the globals. */
  lemma GatedSeesOwnClaims(before: Identity, other: Identity, t: Token)
    requires Verify(t).Success?
    ensures After(before, Gated(t)) == After(other, Gated(t)) == FromClaims(Verify(t).value)
  {
  }
}
