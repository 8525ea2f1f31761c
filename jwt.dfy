/** What token validation (app/utils/jwt.go) hands to its callers. Signing and
    checking signatures are not modelled: `ValidateToken` is an oracle whose
    answer is passed in as an `Option<ParsedToken>` (None for an error). */
module Jwt {
  import opened Common

  /** `JwtCustomClaim` (jwt.go:14-17): the `user_id` claim and the registered `jti`. */
  datatype JwtCustomClaim = JwtCustomClaim(userId: string, jti: string)

  /** The dynamic type behind the `token.Claims` interface value. `ValidateToken`
      parses into a `*JwtCustomClaim` (jwt.go:69-70), so it always yields
      `PtrClaims`; the other two shapes are what a type assertion can meet. */
  datatype Claims =
    | PtrClaims(claim: JwtCustomClaim)
    | ValueClaims(claim: JwtCustomClaim)
    | ForeignClaims

  /** A parsed token: its `Valid` flag and its claims. */
  datatype ParsedToken = ParsedToken(valid: bool, claims: Claims)

  /** A parse result the real `ValidateToken` can return. */
  predicate FromValidateToken(t: Option<ParsedToken>)
  {
    t.Some? ==> t.value.claims.PtrClaims?
  }
}
