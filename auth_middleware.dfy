/** Route protection: `protect` admits a request whose `Authorization` header
    carries a bearer token (section 2.1 of RFC 6750) that verifies, and
    `restrictTo` admits an authenticated user whose role is listed. Token
    verification is the parameter `verify`, which yields the decoded claims. */
module AuthMiddleware {
  import opened Wrappers
  import Text

  /** Either the request goes on to the next handler, with what it carries, or it
      is answered at once with a status code and a message. */
  datatype Outcome<C> = Next(user: C) | Denied(status: int, message: string)

  const NotLoggedIn := "No estás autorizado. Por favor inicia sesión."
  const BadToken := "Token inválido o expirado."
  const NoPermission := "No tienes permisos para realizar esta acción."

  /** A header that is present, non-empty and starts with `Bearer`. */
  predicate BearerHeader(header: Option<string>)
  {
    Filled(header) && "Bearer" <= header.value
  }

  /** `authorization.split(' ')[1]` for a bearer header, or nothing. */
  function ExtractToken(header: Option<string>): (token: Option<string>)
    ensures token.Some? ==> BearerHeader(header) && ' ' in header.value && ' ' !in token.value
    ensures BearerHeader(header) && ' ' in header.value ==> token == Some(Text.Split(header.value, ' ')[1])
  {
    if BearerHeader(header) then
      var parts := Text.Split(header.value, ' ');
      if |parts| > 1 then Some(parts[1]) else None
    else None
  }

  /** `protect`: no token (or an empty one) and a token that fails verification both
      answer 401; a verified token passes its claims on. */
  function Protect<C>(header: Option<string>, verify: string -> Option<C>): (r: Outcome<C>)
    ensures r.Next? <==> Filled(ExtractToken(header)) && verify(ExtractToken(header).value).Some?
    ensures r.Next? ==> r.user == verify(ExtractToken(header).value).value
    ensures !Filled(ExtractToken(header)) ==> r == Denied(401, NotLoggedIn)
    ensures Filled(ExtractToken(header)) && verify(ExtractToken(header).value).None? ==> r == Denied(401, BadToken)
  {
    var token := ExtractToken(header);
    if !Filled(token) then Denied(401, NotLoggedIn)
    else
      var decoded := verify(token.value);
      if decoded.None? then Denied(401, BadToken) else Next(decoded.value)
  }

  /** `restrictTo(...roles)` for a user with role `rol`. */
  function RestrictTo(roles: seq<string>, rol: string): (r: Outcome<string>)
    ensures r.Next? <==> rol in roles
    ensures r.Next? ==> r.user == rol
    ensures r.Denied? ==> r == Denied(403, NoPermission)
  {
    if rol in roles then Next(rol) else Denied(403, NoPermission)
  }

  /** The header `Bearer <token>` yields exactly the token, for a token without spaces. */
  lemma BearerRoundTrip(token: string)
    requires ' ' !in token
    ensures ExtractToken(Some("Bearer " + token)) == Some(token)
  {
    var h := "Bearer " + token;
    assert h == "Bearer" + [' '] + token;
    assert "Bearer" <= h;
    Text.SplitPrefix("Bearer", token, ' ');
    Text.SplitFree(token, ' ');
    assert Text.Split(h, ' ') == ["Bearer", token];
  }

  /** A header that merely starts with `Bearer` but has no space carries no token,
      and the request is refused as not logged in. */
  lemma GluedTokenRefused<C>(header: string, verify: string -> Option<C>)
    requires "Bearer" <= header && ' ' !in header
    ensures Protect(Some(header), verify) == Denied(401, NotLoggedIn)
  {
  }

  /** A signed token sent as a bearer header passes `protect` with the claims it was
      signed with, when verification undoes signing. */
  lemma SignedTokenAdmitted<C>(claims: C, sign: C -> string, verify: string -> Option<C>)
    requires ' ' !in sign(claims) && sign(claims) != "" && verify(sign(claims)) == Some(claims)
    ensures Protect(Some("Bearer " + sign(claims)), verify) == Next(claims)
  {
    BearerRoundTrip(sign(claims));
  }
}
