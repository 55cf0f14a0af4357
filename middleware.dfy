/** The two gates in front of the protected routes: `requireAuth` reads the
    bearer token and puts the caller's identity on the request; `requireRole`
    lets the request through only for the listed roles. */
module Middleware {
  import opened Js
  import opened Http

  /** The payload a verified token carries; `extra` holds the registered
      claims the signer adds (`iat`, `exp`). */
  datatype Claims = Claims(userId: string, agencyId: Option<string>, role: string, extra: map<string, Value>)

  /** `req.user`. */
  datatype AuthUser = AuthUser(userId: string, agencyId: Option<string>, role: string)

  const BearerPrefix := "Bearer "

  /** The token of an `Authorization` header: present only when the header
      starts with "Bearer " (case-sensitive); the prefix is removed and the
      rest trimmed. */
  function BearerToken(header: Option<string>): (token: Option<string>)
    ensures token.Some? <==> header.Some? && StartsWith(header.value, BearerPrefix)
    ensures token.Some? ==> token.value == Trim(header.value[|BearerPrefix|..])
  {
    if header.None? || header.value == "" || !StartsWith(header.value, BearerPrefix) then None
    else
      ReplaceLeadingPrefix(header.value, BearerPrefix);
      Some(Trim(ReplaceFirst(header.value, BearerPrefix, "")))
  }

  datatype AuthDecision = Admit(user: AuthUser) | Reject(response: Response<()>)

  /** `requireAuth` as a decision; `verify` stands for `verifyJwt`, absent when
      the signature or the expiry check fails. */
  function Authenticate(header: Option<string>, verify: string -> Option<Claims>): (d: AuthDecision)
    ensures d.Reject? ==> d.response.status == 401
    ensures BearerToken(header).None? ==> d == Reject(Error(401, "Token ausente"))
    ensures BearerToken(header).Some? && verify(BearerToken(header).value).None?
            ==> d == Reject(Error(401, "Token inválido ou expirado"))
    ensures d.Admit? <==> BearerToken(header).Some? && verify(BearerToken(header).value).Some?
    ensures d.Admit? ==>
              var c := verify(BearerToken(header).value).value;
              d.user.userId == c.userId && d.user.agencyId == c.agencyId && d.user.role == c.role
  {
    match BearerToken(header)
    case None => Reject(Error(401, "Token ausente"))
    case Some(token) =>
      match verify(token)
      case None => Reject(Error(401, "Token inválido ou expirado"))
      case Some(c) => Admit(AuthUser(c.userId, c.agencyId, c.role))
  }

  datatype GateDecision = Next | Forbid(response: Response<()>)

  /** `requireRole(allowed)`: exact membership of a non-empty role, no hierarchy. */
  function RoleGate(user: Option<AuthUser>, allowed: seq<string>): (d: GateDecision)
    ensures d.Next? <==> user.Some? && user.value.role != "" && user.value.role in allowed
    ensures d.Forbid? ==> d.response == Error(403, "Sem permissão")
  {
    if user.None? || user.value.role == "" || user.value.role !in allowed then Forbid(Error(403, "Sem permissão"))
    else Next
  }

  /** An empty list of roles admits nobody, and neither does a request that
      carries no identity. */
  lemma RoleGateDeniesByDefault(user: Option<AuthUser>, allowed: seq<string>)
    requires allowed == [] || user.None?
    ensures RoleGate(user, allowed).Forbid?
  {
  }

  /** A request in flight: the identity the auth gate attached, the reply a
      gate sent, and how many times `next()` was called. */
  class Exchange {
    var user: Option<AuthUser>
    var sent: Option<Response<()>>
    var nextCalls: nat

    constructor ()
      ensures user == None && sent == None && nextCalls == 0
    {
      user, sent, nextCalls := None, None, 0;
    }

    /** `requireAuth(req, res, next)`. */
    method RequireAuth(header: Option<string>, verify: string -> Option<Claims>)
      modifies this
      ensures Authenticate(header, verify).Admit? ==>
        && user == Some(Authenticate(header, verify).user)
        && nextCalls == old(nextCalls) + 1
        && sent == old(sent)
      ensures Authenticate(header, verify).Reject? ==>
        && user == old(user)
        && nextCalls == old(nextCalls)
        && sent == Some(Authenticate(header, verify).response)
    {
      var d := Authenticate(header, verify);
      if d.Admit? {
        user := Some(d.user);
        nextCalls := nextCalls + 1;
      } else {
        sent := Some(d.response);
      }
    }

    /** `requireRole(allowed)(req, res, next)`. */
    method RequireRole(allowed: seq<string>)
      modifies this
      ensures user == old(user)
      ensures RoleGate(user, allowed).Next? ==> nextCalls == old(nextCalls) + 1 && sent == old(sent)
      ensures RoleGate(user, allowed).Forbid? ==>
        nextCalls == old(nextCalls) && sent == Some(Error(403, "Sem permissão"))
    {
      var d := RoleGate(user, allowed);
      if d.Next? {
        nextCalls := nextCalls + 1;
      } else {
        sent := Some(d.response);
      }
    }
  }
}
