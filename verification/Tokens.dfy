/**
 JSON Web Tokens and the token digest, as far as the application relies on them.

 The constructor of a token stands for the secret it is signed with: the access
 and the refresh secret differ, so neither verifier accepts the other kind. Who
 may sign is a matter of the machine that keeps the set of signed tokens
 (AuthSteps). SHA-256 is modelled as an injective function.
 */
module Tokens {
  import opened Prelude

  datatype User = User(id: Uuid, tenantId: Uuid, role: Role, email: string)

  datatype Claims = Claims(sub: Uuid, tenantId: Uuid, role: Role, email: string)

  function ClaimsOf(user: User): Claims {
    Claims(user.id, user.tenantId, user.role, user.email)
  }

  datatype Token =
    | AccessToken(claims: Claims, exp: int)
    | RefreshToken(claims: Claims, jti: Uuid, exp: int)

  type AccessJwt = t: Token | t.AccessToken? witness AccessToken(Claims(0, 0, Member, ""), 0)

  type RefreshJwt = t: Token | t.RefreshToken? witness RefreshToken(Claims(0, 0, Member, ""), 0, 0)

  datatype Digest = Sha256(preimage: Token)

  /**
   Lifetimes in milliseconds. `refreshSpan` is how the JWT library reads the
   configured duration, `rowLifetime` how `resolveExpiryDate` reads the same
   string (Duration.SpansOfAnyConfiguration shows the inequality for every string).
   */
  datatype Config = Config(accessSpan: nat, refreshSpan: nat, rowLifetime: nat) {
    predicate Valid() { refreshSpan <= rowLifetime }
  }

  /** NumericDate of expiry: whole seconds, floored from the signing instant (RFC 7519, sections 2 and 4.1.4). */
  function ExpOf(now: nat, span: nat): int {
    now / 1000 + span / 1000
  }

  /** The verifier compares whole seconds and rejects on or after `exp`. */
  predicate Unexpired(exp: int, now: nat) {
    now / 1000 < exp
  }

  /** The verifier for refresh tokens: signed by this server with the refresh secret, and not expired. */
  predicate VerifiesRefresh(minted: map<Uuid, RefreshJwt>, now: nat, token: Token) {
    && token.RefreshToken?
    && token.jti in minted
    && minted[token.jti] == token
    && Unexpired(token.exp, now)
  }

  /** Rounding costs a token less than two seconds of its configured lifetime. */
  lemma ExpWithinTwoSeconds(now: nat, span: nat)
    ensures now + span - 2_000 < ExpOf(now, span) * 1000 <= now + span
  {
  }

  /** Accepting by whole seconds is the same as being strictly before the expiry in milliseconds. */
  lemma UnexpiredInMilliseconds(exp: int, now: nat)
    ensures Unexpired(exp, now) <==> now < exp * 1000
  {
  }

  /** Signing early and flooring can only shorten the token's life, never lengthen it. */
  lemma ExpNeverLaterThanRow(signedAt: nat, storedAt: nat, span: nat, lifetime: nat)
    requires signedAt <= storedAt && span <= lifetime
    ensures ExpOf(signedAt, span) * 1000 <= storedAt + lifetime
  {
  }
}
