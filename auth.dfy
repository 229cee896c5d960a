/** Bearer-token authentication: the `Bearer ` prefix test of `authMiddleware`
    and `validateToken`, which pins the signing algorithm to the HMAC family.

    Decoding a compact JWT, checking its HMAC signature against the shared
    secret and checking its time claims belong to the JWT library; the model
    receives the decoder as a function and the outcome of those checks as two
    flags of the decoded token. A token the library cannot decode, or whose
    `alg` names a signing method the library does not register, decodes to
    `None`: the library refuses it before the key function runs. */
module Auth {
  import opened Wrappers

  /** What the JWT library reads from a token: the `alg` header parameter
      (section 4.1.1 of RFC 7515), whether the signature matches the shared
      secret under that algorithm, and whether the registered time claims
      (`exp`, `nbf`, `iat` of RFC 7519) hold. */
  datatype Jwt = Jwt(alg: string, signatureValid: bool, claimsValid: bool)

  /** The `alg` values the library's HMAC signing method covers. */
  const HmacAlgs: set<string> := {"HS256", "HS384", "HS512"}

  datatype TokenError = Malformed | UnexpectedSigningMethod(alg: string) | BadClaims | BadSignature

  /** `validateToken`: decode, refuse any algorithm outside the HMAC family
      before the key is handed out, then require valid claims and a valid
      signature. */
  function ValidateToken(decode: string -> Option<Jwt>, token: string): (r: Result<Jwt, TokenError>)
    ensures r.Ok? ==> decode(token) == Some(r.value)
    ensures r.Ok? ==> r.value.alg in HmacAlgs && r.value.signatureValid && r.value.claimsValid
  {
    match decode(token)
    case None => Err(Malformed)
    case Some(t) =>
      if t.alg !in HmacAlgs then Err(UnexpectedSigningMethod(t.alg))
      else if !t.claimsValid then Err(BadClaims)
      else if !t.signatureValid then Err(BadSignature)
      else Ok(t)
  }

  /** A token is accepted exactly when it decodes to an HMAC-signed token
      whose signature and claims both check out. */
  lemma ValidateTokenAccepts(decode: string -> Option<Jwt>, token: string)
    ensures ValidateToken(decode, token).Ok? <==>
      (decode(token).Some? && decode(token).value.alg in HmacAlgs &&
       decode(token).value.signatureValid && decode(token).value.claimsValid)
  {
  }

  /** The algorithm pin: a token declaring any other algorithm, `none` or an
      asymmetric one included, is refused whatever its signature and claims. */
  lemma AlgorithmPinned(decode: string -> Option<Jwt>, token: string)
    requires decode(token).Some? && decode(token).value.alg !in HmacAlgs
    ensures ValidateToken(decode, token) == Err(UnexpectedSigningMethod(decode(token).value.alg))
  {
  }

  const BearerPrefix: string := "Bearer "

  /** The token carried by an `Authorization` header, if it has the `Bearer `
      prefix (`strings.HasPrefix` then `strings.TrimPrefix`). */
  function BearerToken(header: string): (r: Option<string>)
    ensures r.Some? <==> BearerPrefix <= header
    ensures r.Some? ==> header == BearerPrefix + r.value
  {
    if BearerPrefix <= header then Some(header[|BearerPrefix|..]) else None
  }
}
