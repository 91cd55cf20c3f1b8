/**
 * The JSON Web Token service seen from outside. Signing and verification
 * under the server's secret are not modelled; they are a pair of functions
 * that callers pass in, tied together by one assumption, `Sound`.
 */
module Jwt {
  import opened Builtins

  /** The payload the server signs and `verify` hands back: the user's id, e-mail and role. */
  datatype Claims = Claims(id: string, email: string, role: string)

  /** The default of `jwtExpiresIn`, "7d", in seconds. */
  const DefaultLifetime: nat := 7 * 24 * 60 * 60

  /**
   * `jwt.sign(claims, secret, {expiresIn})` issued at a given second, and
   * `jwt.verify(token, secret)` evaluated at a given second (`None` stands
   * for the exception it throws), with the configured lifetime in seconds.
   */
  datatype TokenService = TokenService(
    sign: (Claims, int) -> string,
    verify: (string, int) -> Option<Claims>,
    lifetime: nat)

  /**
   * What the model assumes of the library: a token it signed verifies to
   * its claims until it expires and is refused afterwards, and a signed
   * token (three base64url segments joined by dots) is never empty and
   * never contains a space.
   */
  ghost predicate Sound(ts: TokenService) {
    && (forall c, issuedAt, now :: issuedAt <= now < issuedAt + ts.lifetime ==>
          ts.verify(ts.sign(c, issuedAt), now) == Some(c))
    && (forall c, issuedAt, now :: issuedAt + ts.lifetime <= now ==>
          ts.verify(ts.sign(c, issuedAt), now) == None)
    && (forall c, issuedAt :: ts.sign(c, issuedAt) != "" && ' ' !in ts.sign(c, issuedAt))
  }
}
