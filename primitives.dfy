/** Values shared by the whole model: optional and fallible results, the claims
    a session token carries, and the library primitives (jsonwebtoken and
    bcryptjs) that the route file calls but that are not part of this model.
 */
module Primitives {

  datatype Option<+T> = None | Some(value: T)

  datatype Result<+T, +E> = Success(value: T) | Failure(error: E)

  /** The claims signed into a session token at login: `{ id, email, name }`.
      The `iat`/`exp` entries that jsonwebtoken adds are checked inside
      `Crypto.verify` and are not read by any handler. */
  datatype Claims = Claims(id: nat, email: string, name: string)

  /** The cryptographic library calls, kept opaque.
      - `verify(token)`: `jwt.verify` with the process secret and the current
        clock; success yields the payload, failure the library's error message.
      - `sign(claims, expiresInSeconds)`: `jwt.sign`; `None` when signing fails.
      - `hash(password)`: `bcrypt.hash` with the salt generated once when the
        route module is loaded, hence a function of the password alone.
      - `compare(password, digest)`: `bcrypt.compare`.
      Because signing and verifying read the clock, a `Crypto` value stands for
      the library as seen by one request; callers pass one per request. */
  datatype Crypto = Crypto(
    verify: string -> Result<Claims, string>,
    sign: (Claims, nat) -> Option<string>,
    hash: string -> string,
    compare: (string, string) -> bool)

  /** `expiresIn: "1d"` in jsonwebtoken's notation, in seconds. */
  const TokenLifetimeSeconds: nat := 24 * 60 * 60

  /** The session cookie's `maxAge`, in milliseconds. */
  const CookieMaxAgeMs: nat := 24 * 60 * 60 * 1000

  /** JavaScript falsiness of a string-valued request field: absent (`undefined`
      or `null`) or the empty string. */
  predicate Missing(field: Option<string>)
  {
    field.None? || field.value == ""
  }
}
