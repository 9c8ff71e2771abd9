/** Bearer tokens (functions/utils/jwt.ts) and the request gates of functions/utils/middleware.ts. Signing and
    verifying a token are left to the JWT library: a token is identified with the claims it was signed for,
    and verification is a parameter that answers the payload or nothing. */
module Auth {
  import opened Common
  import opened Text
  import opened Records

  /** The JWT payload. */
  datatype Claims = Claims(userId: string, role: Role, subscription: Tier)

  /** generateToken(claims): the token text is not modelled, only what it was signed for. */
  datatype IssuedToken = IssuedToken(claims: Claims)

  /** verifyToken: the payload of a token that verifies, nothing for any failure (it never throws). */
  type Verifier = string -> Option<Claims>

  const BEARER: string := "Bearer "

  /** The caller optionalAuth installs when no token is sent. */
  const GUEST: Claims := Claims("guest", Guest, Free)

  /** What a middleware does with the request: pass it on, or answer with an error status. */
  datatype Gate = Next | Halt(status: nat, error: string)

  /** extractToken: the text after a case-sensitive `Bearer ` prefix of the Authorization header. */
  function ExtractToken(header: Option<string>): (token: Option<string>)
    ensures token.Some? <==> header.Some? && StartsWith(header.value, BEARER)
    ensures token.Some? ==> BEARER + token.value == header.value && |token.value| == |header.value| - 7
  {
    if header.None? || header.value == "" || !StartsWith(header.value, BEARER) then None
    else
      assert header.value == header.value[..7] + header.value[7..];
      Some(header.value[7..])
  }

  /** The caller authMiddleware accepts: a non-empty token that verifies. */
  function Authenticated(header: Option<string>, verify: Verifier): (c: Option<Claims>)
    ensures c.Some? <==> exists t :: ExtractToken(header) == Some(t) && t != "" && verify(t).Some?
    ensures c.Some? ==> c == verify(ExtractToken(header).value)
  {
    var token := ExtractToken(header);
    if Truthy(token) then verify(token.value) else None
  }

  /** The caller optionalAuth installs, if any: the guest when no (non-empty) token is sent, the payload of a
      token that verifies, and nobody for a token that does not. */
  function OptionalUser(header: Option<string>, verify: Verifier): (c: Option<Claims>)
    ensures !Truthy(ExtractToken(header)) ==> c == Some(GUEST)
    ensures Truthy(ExtractToken(header)) ==> c == verify(ExtractToken(header).value)
  {
    var token := ExtractToken(header);
    if Truthy(token) then verify(token.value) else Some(GUEST)
  }

  /** The request context: the Authorization header and the `user` slot middlewares fill in. */
  class RequestContext {
    const authorization: Option<string>
    var user: Option<Claims>

    constructor (authorization: Option<string>)
      ensures this.authorization == authorization && user == None
    {
      this.authorization := authorization;
      user := None;
    }

    /** authMiddleware: 401 without a token or with one that does not verify; otherwise installs the payload. */
    method Authenticate(verify: Verifier) returns (g: Gate)
      modifies this
      ensures g.Next? <==> Authenticated(authorization, verify).Some?
      ensures g.Next? ==> user == Authenticated(authorization, verify)
      ensures !Truthy(ExtractToken(authorization)) ==> g == Halt(401, "Unauthorized: No token provided")
      ensures Truthy(ExtractToken(authorization)) && !g.Next? ==> g == Halt(401, "Unauthorized: Invalid token")
      ensures !g.Next? ==> user == old(user)
    {
      var token := ExtractToken(authorization);
      if !Truthy(token) {
        return Halt(401, "Unauthorized: No token provided");
      }
      var payload := verify(token.value);
      if payload.None? {
        return Halt(401, "Unauthorized: Invalid token");
      }
      user := payload;
      g := Next;
    }

    /** optionalAuth: never stops the request; a token that does not verify leaves the slot as it was. */
    method OptionalAuth(verify: Verifier)
      modifies this
      ensures user == if OptionalUser(authorization, verify).Some? then OptionalUser(authorization, verify) else old(user)
    {
      var token := ExtractToken(authorization);
      if Truthy(token) {
        var payload := verify(token.value);
        if payload.Some? {
          user := payload;
        }
      } else {
        user := Some(GUEST);
      }
    }
  }

  /** requireRole(...allowed): 401 without a caller, 403 for a caller whose role is not allowed. */
  function RequireRole(user: Option<Claims>, allowed: seq<Role>): (g: Gate)
    ensures g.Next? <==> user.Some? && user.value.role in allowed
    ensures user.None? ==> g == Halt(401, "Unauthorized")
    ensures user.Some? && user.value.role !in allowed ==> g == Halt(403, "Forbidden: Insufficient permissions")
  {
    if user.None? then Halt(401, "Unauthorized")
    else if user.value.role !in allowed then Halt(403, "Forbidden: Insufficient permissions")
    else Next
  }

  /** requireAdmin = requireRole('admin'). */
  function RequireAdmin(user: Option<Claims>): (g: Gate)
    ensures g.Next? <==> user.Some? && user.value.role == Admin
  {
    RequireRole(user, [Admin])
  }

  /** The rule every read path applies to premium content. */
  predicate PremiumDenied(premium: bool, c: Claims)
  {
    premium && c.role != Admin && c.subscription != Premium
  }

  /** requirePremium: 401 without a caller; admins pass whatever their tier; anyone else needs premium. */
  function RequirePremium(user: Option<Claims>): (g: Gate)
    ensures g.Next? <==> user.Some? && (user.value.role == Admin || user.value.subscription == Premium)
    ensures user.None? ==> g == Halt(401, "Unauthorized")
    ensures user.Some? && !g.Next? ==> g == Halt(403, "Premium subscription required")
  {
    if user.None? then Halt(401, "Unauthorized")
    else if user.value.role == Admin then Next
    else if user.value.subscription != Premium then Halt(403, "Premium subscription required")
    else Next
  }

  /** requirePremium lets a caller through exactly when the read paths would show that caller premium
      content. */
  lemma RequirePremiumMatchesReadRule(c: Claims)
    ensures RequirePremium(Some(c)).Next? <==> !PremiumDenied(true, c)
  {
  }

  /** Content that is not premium is never denied, to anyone. */
  lemma StandardNeverDenied(c: Claims)
    ensures !PremiumDenied(false, c)
  {
  }

  /** A header of exactly `Bearer ` carries the empty token: authMiddleware answers 401 and optionalAuth
      installs the guest, who is denied premium content. */
  lemma BareBearerIsNoToken(verify: Verifier)
    ensures ExtractToken(Some(BEARER)) == Some("")
    ensures Authenticated(Some(BEARER), verify).None?
    ensures OptionalUser(Some(BEARER), verify) == Some(GUEST)
    ensures PremiumDenied(true, GUEST)
  {
    assert BEARER[7..] == "";
  }

  /** A header with any other scheme, or with the scheme in another case, carries no token at all. */
  lemma OtherSchemeIsNoToken(rest: string)
    ensures ExtractToken(Some("bearer " + rest)).None?
    ensures ExtractToken(Some("Basic " + rest)).None?
  {
    assert ("bearer " + rest)[0] != BEARER[0];
    assert ("Basic " + rest)[1] != BEARER[1];
  }
}
