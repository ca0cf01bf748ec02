// The backend's request guards: the Bearer-token middleware (auth.js) and the role
// gate (roles.js).
module Auth {
  import opened Common
  import opened Text

  /**
   * The fields of a verified token payload the backend reads. A missing or falsy field
   * is 0 for the id and "" for the role.
   */
  datatype Claims = Claims(id: int, role: string)

  datatype AuthResult =
    | Rejected(status: int, message: string)
    | Authenticated(user: Claims)

  const BEARER: string := "Bearer "

  /** `header.split(' ')[1]` for a header that starts with "Bearer ". */
  function BearerToken(header: string): (token: string)
    requires StartsWith(header, BEARER)
    ensures token == TakeUntil(header[|BEARER|..], ' ')
  {
    var rest := header[|BEARER|..];
    assert header == "Bearer" + [' '] + rest;
    SplitAfterPrefix("Bearer", ' ', rest);
    SplitFirstField(rest, ' ');
    Split(header, ' ')[1]
  }

  /**
   * The decision of auth.js. `verify` is jwt.verify with the server secret: None when it
   * throws (bad signature, expired, malformed).
   */
  function Authenticate(header: Option<string>, verify: string -> Option<Claims>): (r: AuthResult)
    ensures r == Rejected(401, "No token provided")
            <==> header.None? || header.value == "" || !StartsWith(header.value, BEARER)
    ensures r.Authenticated? ==>
              header.Some? && StartsWith(header.value, BEARER)
              && verify(TakeUntil(header.value[|BEARER|..], ' ')) == Some(r.user)
              && r.user.id != 0 && r.user.role != ""
    ensures r.Rejected? ==> r.status == 401 || r.status == 400
  {
    if header.None? || header.value == "" || !StartsWith(header.value, BEARER) then
      Rejected(401, "No token provided")
    else
      match verify(BearerToken(header.value))
      case None => Rejected(401, "Invalid token")
      case Some(claims) =>
        if claims.id == 0 || claims.role == "" then
          Rejected(400, "Invalid token payload: missing id or role")
        else Authenticated(claims)
  }

  /** The scheme is matched exactly: "bearer x" and "Bearer" alone are refused before any verification. */
  lemma SchemeIsCaseSensitive(verify: string -> Option<Claims>)
    ensures Authenticate(Some("bearer x"), verify) == Rejected(401, "No token provided")
    ensures Authenticate(Some("Bearer"), verify) == Rejected(401, "No token provided")
  {
  }

  /** An incoming request as the middleware sees it and leaves it. */
  class Request {
    const authorization: Option<string>
    var user: Option<Claims>
    var status: Option<int>
    var nextCalls: nat

    constructor (authorization: Option<string>)
      ensures this.authorization == authorization
      ensures user == None && status == None && nextCalls == 0
    {
      this.authorization := authorization;
      user := None;
      status := None;
      nextCalls := 0;
    }
  }

  /**
   * Runs auth.js on `req`: either a response status is set and next is not called, or
   * req.user is set to the payload and next is called once.
   */
  method AuthMiddleware(req: Request, verify: string -> Option<Claims>)
    requires req.status == None
    modifies req
    ensures var r := Authenticate(req.authorization, verify);
            if r.Authenticated? then
              req.user == Some(r.user) && req.status == None && req.nextCalls == old(req.nextCalls) + 1
            else
              req.user == old(req.user) && req.status == Some(r.status) && req.nextCalls == old(req.nextCalls)
  {
    var r := Authenticate(req.authorization, verify);
    if r.Authenticated? {
      req.user := Some(r.user);
      req.nextCalls := req.nextCalls + 1;
    } else {
      req.status := Some(r.status);
    }
  }

  // ---------------------------------------------------------------- roles.js

  datatype Gate = Next | Deny(status: int)

  /** `requireRole(required)` applied to req.user. */
  function RequireRole(required: string, user: Option<Claims>): (g: Gate)
    ensures g == Deny(401) <==> user.None? || user.value.role == ""
    ensures required == ADMIN && user.Some? && user.value.role != "" ==>
              (g == Next <==> user.value.role == ADMIN)
    ensures required == SUB_ADMIN && user.Some? && user.value.role != "" ==>
              (g == Next <==> user.value.role == ADMIN || user.value.role == SUB_ADMIN)
    ensures required != ADMIN && required != SUB_ADMIN ==>
              (g == Next <==> user.Some? && user.value.role != "")
    ensures g != Next ==> g == Deny(401) || g == Deny(403)
  {
    if user.None? || user.value.role == "" then Deny(401)
    else if required == ADMIN && user.value.role != ADMIN then Deny(403)
    else if required == SUB_ADMIN && user.value.role !in [ADMIN, SUB_ADMIN] then Deny(403)
    else Next
  }

  /** An ADMIN principal passes every requirement. */
  lemma {:induction false} AdminPassesEverything(required: string, id: int)
    ensures RequireRole(required, Some(Claims(id, ADMIN))) == Next
  {
    var user := Some(Claims(id, ADMIN));
    assert user.value.role in [ADMIN, SUB_ADMIN];
  }

  /** The roles a requirement admits shrink from any role to SUB_ADMIN to ADMIN. */
  lemma {:induction false} RequirementsAreNested(user: Option<Claims>, other: string)
    requires other != ADMIN && other != SUB_ADMIN
    ensures RequireRole(ADMIN, user) == Next ==> RequireRole(SUB_ADMIN, user) == Next
    ensures RequireRole(SUB_ADMIN, user) == Next ==> RequireRole(other, user) == Next
  {
    if RequireRole(ADMIN, user) == Next {
      assert user.value.role in [ADMIN, SUB_ADMIN];
    }
  }
}
