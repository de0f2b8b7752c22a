/** The records and errors shared by the token stores, the token manager and the token client. */
module TokenTypes {
  import opened Json

  datatype TokenError =
    | NotAuthorized(message: string)
    | Invalid
    | TokenNotFound(identifier: string)
    | DatabaseError(message: string)
    | GeneralError(message: string)
    | NetworkError(message: string)
    | GenerationError(message: string)
    | VerificationError(message: string)

  /** The custom claims given to `generate_pair`. */
  type Claims = map<string, Value>

  /** A renewable token entry; `hash` is the keyed hash of its refresh token. */
  datatype Entry = Entry(
    id: string,
    token: string,
    hash: string,
    expiresAt: int,
    subject: string,
    claims: Claims,
    participantContextId: string,
    audience: string,
    flowId: string)

  /** The answer of `generate_pair` and `renew`. */
  datatype TokenPair = TokenPair(token: string, refreshToken: string, expiresAt: int, refreshEndpoint: string)

  datatype ParticipantContext = ParticipantContext(id: string, identifier: string, audience: string)

  /** The claims of a JSON web token; `custom` holds every claim without a field of its own. */
  datatype TokenClaims = TokenClaims(iss: string, sub: string, aud: string, exp: int, custom: Claims)
}
