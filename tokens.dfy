/**
 * The session-token vocabulary shared by the user handlers and the
 * authentication middleware. Signing and verification belong to the JSON
 * web token library; the model passes them in as functions.
 */
module Tokens {
  import opened Wrappers
  import opened Errors

  /** The payload the server signs: `{ id }`. */
  datatype Claims = Claims(id: string)

  /** The two environment variables the token code reads. */
  datatype Env = Env(jwtSecret: Option<string>, jwtExpiresIn: Option<string>)

  /** `jwt.sign(payload, secret, { expiresIn })`. */
  type Signer = (Claims, string, string) -> string

  /** `jwt.verify(token, secret)`: the decoded payload, or the error it throws. */
  type Verifier = (string, string) -> Result<Claims, Error>

  const DefaultSecret := "default_secret"
  const DefaultExpiresIn := "1d"

  /**
   * `value || fallback` on an environment variable: an unset variable and
   * an empty one are both falsy, so both give the fallback.
   */
  function EnvOr(value: Option<string>, fallback: string): (r: string)
    requires fallback != ""
    ensures r != ""
    ensures r == fallback <==> (value.None? || value.value == "" || value.value == fallback)
    ensures value.Some? && value.value != "" ==> r == value.value
  {
    if value.Some? && value.value != "" then value.value else fallback
  }

  function Secret(env: Env): string {
    EnvOr(env.jwtSecret, DefaultSecret)
  }

  function ExpiresIn(env: Env): string {
    EnvOr(env.jwtExpiresIn, DefaultExpiresIn)
  }

  /** The token issued for user `id`. */
  function IssueToken(sign: Signer, env: Env, id: string): (r: string)
    ensures env.jwtSecret.Some? && env.jwtSecret.value != "" ==>
              r == sign(Claims(id), env.jwtSecret.value, ExpiresIn(env))
    ensures env.jwtSecret.None? || env.jwtSecret == Some("") ==>
              r == sign(Claims(id), DefaultSecret, ExpiresIn(env))
    ensures env.jwtExpiresIn.None? || env.jwtExpiresIn == Some("") ==>
              r == sign(Claims(id), Secret(env), DefaultExpiresIn)
  {
    sign(Claims(id), Secret(env), ExpiresIn(env))
  }
}
