/** The request guards of server/middleware/authMiddleware.js: `protect`
    (a Bearer token in the Authorization header), `authorize` (the caller's
    role among the allowed ones) and the older combined guard that the
    survey routes use. Token verification with the server's secret is the
    parameter `verify`: it gives the token's claims, or `None` when the
    token is not valid. */
module AuthMiddleware {
  import opened Common

  /** The claims a valid token carries. */
  datatype Claims = Claims(id: Id, role: string)

  /** What a guard does with a request: pass it on with the caller's claims
      attached, or answer it with a status and message. */
  datatype Decision = Next(user: Claims) | Reject(status: int, message: string)

  /** `jwt.verify`: a missing or empty token is never valid, whatever the
      secret. */
  function Verify(verify: string -> Option<Claims>, token: Option<string>): (c: Option<Claims>)
    ensures c.Some? ==> token.Some? && token.value != "" && c == verify(token.value)
  {
    if token.Some? && token.value != "" then verify(token.value) else None
  }

  /** `s.split(' ')[1]`: the second space-separated word, if there is one. */
  function SecondWord(s: string): (w: Option<string>)
    ensures w.Some? <==> ' ' in s
  {
    var parts := Split(s, ' ');
    CountPositive(s, ' ');
    if |parts| > 1 then Some(parts[1]) else None
  }

  /** `protect`: the header must start with "Bearer"; its second word must
      verify. Every refusal is a 401. */
  function Protect(authorization: Option<string>, verify: string -> Option<Claims>): (d: Decision)
    ensures d.Reject? ==> d.status == 401
    ensures d.Next? <==>
      && authorization.Some? && StartsWith(authorization.value, "Bearer")
      && Verify(verify, SecondWord(authorization.value)).Some?
    ensures d.Next? ==> Some(d.user) == Verify(verify, SecondWord(authorization.value))
  {
    if authorization.Some? && StartsWith(authorization.value, "Bearer") then
      match Verify(verify, SecondWord(authorization.value))
      case Some(claims) => Next(claims)
      case None => Reject(401, "Not authorized, token failed")
    else
      Reject(401, "Not authorized, no token")
  }

  /** A well-formed header "Bearer <token>" passes exactly when the token
      verifies, and the caller is whoever the token names. */
  lemma ProtectBearerToken(token: string, verify: string -> Option<Claims>)
    requires token != "" && ' ' !in token
    ensures Protect(Some("Bearer " + token), verify) ==
      if verify(token).Some? then Next(verify(token).value) else Reject(401, "Not authorized, token failed")
  {
    var header := "Bearer " + token;
    assert header == "Bearer" + [' '] + token;
    SplitTwoWords("Bearer", token, ' ');
    assert StartsWith(header, "Bearer");
  }

  /** A header that starts with "Bearer" but has no space, such as
      "Bearertoken", carries no token and is refused as a failed token. */
  lemma ProtectNoSecondWord(header: string, verify: string -> Option<Claims>)
    requires StartsWith(header, "Bearer") && ' ' !in header
    ensures Protect(Some(header), verify) == Reject(401, "Not authorized, token failed")
  {
  }

  /** `authorize(...roles)`: an unauthenticated request is a 401, a caller
      whose role is not listed a 403. */
  function Authorize(roles: seq<string>, user: Option<Claims>): (d: Decision)
    ensures d.Next? <==> user.Some? && user.value.role in roles
    ensures d.Next? ==> d.user == user.value
    ensures d.Reject? ==> d.status == (if user.None? then 401 else 403)
  {
    if user.None? then Reject(401, "Not authorized")
    else if user.value.role !in roles then
      Reject(403, "User role " + user.value.role + " is not authorized to access this route")
    else Next(user.value)
  }

  /** `req.header('Authorization')?.split(' ')[1]`: no token without a
      header. */
  function HeaderToken(authorization: Option<string>): Option<string> {
    if authorization.Some? then SecondWord(authorization.value) else None
  }

  /** The legacy guard: the header's second word is the token, whatever the
      first word is; no token is a 401, an invalid one a 400, and a caller
      outside a non-empty role list a 403. An empty list admits every
      authenticated caller. */
  function Legacy(roles: seq<string>, authorization: Option<string>, verify: string -> Option<Claims>): (d: Decision)
    ensures d.Reject? ==> d.status in {400, 401, 403}
    ensures authorization.None? ==> d == Reject(401, "Access Denied")
    ensures !Truthy(HeaderToken(authorization)) ==> d == Reject(401, "Access Denied")
    ensures Truthy(HeaderToken(authorization)) && Verify(verify, HeaderToken(authorization)).None? ==>
      d == Reject(400, "Invalid Token")
    ensures (Truthy(HeaderToken(authorization)) && Verify(verify, HeaderToken(authorization)).Some? &&
      roles != [] && Verify(verify, HeaderToken(authorization)).value.role !in roles) ==>
      d == Reject(403, "Forbidden")
    ensures d.Next? <==>
      && authorization.Some?
      && Verify(verify, SecondWord(authorization.value)).Some?
      && (roles == [] || Verify(verify, SecondWord(authorization.value)).value.role in roles)
    ensures d.Next? ==> Some(d.user) == Verify(verify, HeaderToken(authorization))
  {
    var token := HeaderToken(authorization);
    if !Truthy(token) then Reject(401, "Access Denied")
    else
      match Verify(verify, token)
      case None => Reject(400, "Invalid Token")
      case Some(claims) =>
        if |roles| != 0 && claims.role !in roles then Reject(403, "Forbidden")
        else Next(claims)
  }

  /** The two guard styles admit the same callers on a well-formed Bearer
      header and a non-empty role list; they differ in how they refuse an
      invalid token (401 against 400) and in what an empty role list means
      (nobody against everybody). */
  lemma LegacyAgreesWithProtectAuthorize(roles: seq<string>, token: string, verify: string -> Option<Claims>)
    requires token != "" && ' ' !in token
    ensures var header := Some("Bearer " + token);
      var p := Protect(header, verify);
      roles != [] ==>
        (Legacy(roles, header, verify).Next? <==> p.Next? && Authorize(roles, Some(p.user)).Next?)
    ensures verify(token).None? ==>
      Legacy(roles, Some("Bearer " + token), verify) == Reject(400, "Invalid Token") &&
      Protect(Some("Bearer " + token), verify) == Reject(401, "Not authorized, token failed")
    ensures roles == [] ==>
      Authorize(roles, Some(Claims("", ""))).Reject? &&
      (Legacy(roles, Some("Bearer " + token), verify).Next? <==> verify(token).Some?)
  {
    ProtectBearerToken(token, verify);
    SplitTwoWords("Bearer", token, ' ');
    assert "Bearer " + token == "Bearer" + [' '] + token;
  }
}
