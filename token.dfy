/**
 * What the rest of the model needs from src/token: the payload a verified
 * access token carries and the two errors `VerifyToken` returns. Signing and
 * parsing belong to the JWT library and are not modelled.
 */
module Token {
  datatype Payload = Payload(username: string)

  datatype TokenError = ErrTokenInvalid | ErrExpiredToken
}
