/**
 * The client and the server agree on the header format: what the client
 * installs with setAuthToken is what the server's gate verifies.
 */
module TokenRoundTrip {
  import opened Wrappers
  import opened Tokens
  import opened Errors
  import AuthToken
  import AuthMiddleware
  import ErrorHandler

  /** The header the client sends for a non-empty token `t` extracts to exactly `t`. */
  lemma BearerRoundTrip(t: string)
    requires t != ""
    ensures AuthMiddleware.ExtractToken(Some(AuthToken.BearerHeader(t))) == Some(t)
    ensures !AuthMiddleware.MissingToken(AuthMiddleware.ExtractToken(Some(AuthToken.BearerHeader(t))))
  {
    AuthMiddleware.ExtractAfterPrefix(t);
  }

  /** The server verifies exactly the token the client installed, with its configured secret. */
  lemma GateVerifiesSentToken(t: string, verify: Verifier, env: Env)
    requires t != ""
    ensures verify(t, Secret(env)).Success? ==>
              AuthMiddleware.Gate(Some(AuthToken.BearerHeader(t)), verify, env) == verify(t, Secret(env))
    ensures verify(t, Secret(env)).Failure? ==>
              AuthMiddleware.Gate(Some(AuthToken.BearerHeader(t)), verify, env) ==
                Failure(AuthMiddleware.Classify(verify(t, Secret(env)).error))
  {
    BearerRoundTrip(t);
  }

  /**
   * After clearAuthToken a request carries no Authorization header, and
   * the gate answers it with 401 "No token provided".
   */
  lemma ClearedClientIsRefused(headers: map<string, string>, verify: Verifier, env: Env)
    ensures AuthMiddleware.Gate(AuthToken.AuthorizationHeader(AuthToken.WithoutAuthorization(headers)), verify, env)
              == Failure(AuthMiddleware.NoToken)
    ensures ErrorHandler.HandleError(AuthMiddleware.NoToken) == ErrorHandler.Reply(401, ErrorHandler.Body(false, "Access denied. No token provided"))
  {
    assert AuthToken.AuthorizationHeader(AuthToken.WithoutAuthorization(headers)) == None;
  }

  /** After setAuthToken with a non-empty token, the gate verifies exactly that token. */
  lemma SetClientIsVerified(headers: map<string, string>, t: string, verify: Verifier, env: Env)
    requires t != ""
    ensures AuthMiddleware.Gate(AuthToken.AuthorizationHeader(headers[AuthToken.Authorization := AuthToken.BearerHeader(t)]), verify, env)
              == if verify(t, Secret(env)).Success? then verify(t, Secret(env))
                 else Failure(AuthMiddleware.Classify(verify(t, Secret(env)).error))
  {
    assert AuthToken.AuthorizationHeader(headers[AuthToken.Authorization := AuthToken.BearerHeader(t)])
           == Some(AuthToken.BearerHeader(t));
    GateVerifiesSentToken(t, verify, env);
  }

  /** Every failure of a token the library rejects reaches the client as a 401. */
  lemma TokenRejectionsAre401(header: Option<string>, verify: Verifier, env: Env)
    requires AuthMiddleware.Gate(header, verify, env).Failure?
    requires !AuthMiddleware.MissingToken(AuthMiddleware.ExtractToken(header))
    requires IsJsonWebTokenError(verify(AuthMiddleware.ExtractToken(header).value, Secret(env)).error)
    ensures ErrorHandler.HandleError(AuthMiddleware.Gate(header, verify, env).error).status == 401
  {
  }
}
