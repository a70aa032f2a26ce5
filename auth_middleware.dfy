/**
 * The authentication gate in front of the protected routes: take the
 * Authorization header, strip the first "Bearer " from it, refuse a
 * missing or empty token, verify the token and attach its payload to the
 * request, or hand a classified error to the next handler.
 */
module AuthMiddleware {
  import opened Wrappers
  import opened Errors
  import opened Tokens

  const BearerPrefix := "Bearer "
  const NoToken := ApiError(401, "Access denied. No token provided")
  const InvalidToken := ApiError(401, "Invalid token")
  const TokenExpired := ApiError(401, "Token expired")

  predicate OccursAt(s: string, pat: string, i: nat) {
    i + |pat| <= |s| && s[i..i + |pat|] == pat
  }

  /** The first position at or after `from` where `pat` occurs in `s`. */
  function FirstOccurrence(s: string, pat: string, from: nat): (r: Option<nat>)
    decreases |s| - from
    ensures r.Some? ==> from <= r.value && OccursAt(s, pat, r.value)
    ensures r.Some? ==> forall j: nat :: from <= j < r.value ==> !OccursAt(s, pat, j)
    ensures r.None? ==> forall j: nat :: from <= j ==> !OccursAt(s, pat, j)
  {
    if from + |pat| > |s| then None
    else if s[from..from + |pat|] == pat then Some(from)
    else FirstOccurrence(s, pat, from + 1)
  }

  /** `s.replace(pat, rep)` with a string pattern: only the first occurrence is replaced. */
  function ReplaceFirst(s: string, pat: string, rep: string): string {
    match FirstOccurrence(s, pat, 0)
    case None => s
    case Some(i) => s[..i] + rep + s[i + |pat|..]
  }

  /** `req.header('Authorization')?.replace('Bearer ', '')` */
  function ExtractToken(header: Option<string>): (r: Option<string>)
    ensures r.Some? <==> header.Some?
    ensures r.Some? ==>
              || r.value == header.value
              || exists i: nat :: OccursAt(header.value, BearerPrefix, i) &&
                   r.value == header.value[..i] + header.value[i + |BearerPrefix|..]
  {
    match header
    case None => None
    case Some(h) => Some(ReplaceFirst(h, BearerPrefix, ""))
  }

  /** `!token`: no header, or a header that leaves nothing once "Bearer " is removed. */
  predicate MissingToken(token: Option<string>) {
    token.None? || token.value == ""
  }

  /** The search stops at the first occurrence at or after `from`. */
  lemma {:induction false} FirstOccurrenceIs(s: string, pat: string, from: nat, i: nat)
    requires from <= i && OccursAt(s, pat, i)
    requires forall j: nat :: from <= j < i ==> !OccursAt(s, pat, j)
    ensures FirstOccurrence(s, pat, from) == Some(i)
    decreases i - from
  {
    if from < i {
      assert !OccursAt(s, pat, from);
      FirstOccurrenceIs(s, pat, from + 1, i);
    }
  }

  /** The search finds nothing when nothing occurs at or after `from`. */
  lemma {:induction false} FirstOccurrenceNone(s: string, pat: string, from: nat)
    requires forall j: nat :: from <= j ==> !OccursAt(s, pat, j)
    ensures FirstOccurrence(s, pat, from) == None
    decreases |s| - from
  {
    if from + |pat| <= |s| {
      assert !OccursAt(s, pat, from);
      FirstOccurrenceNone(s, pat, from + 1);
    }
  }

  /** The token is the header with its first "Bearer " cut out, wherever it stands. */
  lemma ExtractCutsFirstBearer(h: string, i: nat)
    requires OccursAt(h, BearerPrefix, i)
    requires forall j: nat :: j < i ==> !OccursAt(h, BearerPrefix, j)
    ensures ExtractToken(Some(h)) == Some(h[..i] + h[i + |BearerPrefix|..])
  {
    FirstOccurrenceIs(h, BearerPrefix, 0, i);
    assert h[..i] + "" + h[i + |BearerPrefix|..] == h[..i] + h[i + |BearerPrefix|..];
  }

  /** A header with no "Bearer " in it is taken as the token itself. */
  lemma ExtractWithoutBearer(h: string)
    requires forall j: nat :: !OccursAt(h, BearerPrefix, j)
    ensures ExtractToken(Some(h)) == Some(h)
  {
    FirstOccurrenceNone(h, BearerPrefix, 0);
  }

  /** A header that is "Bearer " followed by `t` yields exactly `t`. */
  lemma {:induction false} ExtractAfterPrefix(t: string)
    ensures ExtractToken(Some(BearerPrefix + t)) == Some(t)
  {
    var h := BearerPrefix + t;
    assert h[..|BearerPrefix|] == BearerPrefix;
    assert OccursAt(h, BearerPrefix, 0);
    ExtractCutsFirstBearer(h, 0);
    assert h[..0] + "" + h[|BearerPrefix|..] == t;
  }

  /**
   * The catch block as written: `instanceof JsonWebTokenError` is tested
   * first, and it also holds for the library's TokenExpiredError.
   */
  function ClassifyAsWritten(e: Error): (r: Error)
    ensures IsJsonWebTokenError(e) ==> r == InvalidToken
    ensures !IsJsonWebTokenError(e) ==> r == e
  {
    if IsJsonWebTokenError(e) then InvalidToken
    else if e.TokenExpiredError? then TokenExpired
    else e
  }

  /** An expired token is reported as an invalid one. */
  lemma ExpiredReportedInvalidAsWritten(expiredAt: int)
    ensures ClassifyAsWritten(TokenExpiredError("jwt expired", expiredAt)) == InvalidToken
  {
  }

  /** The "Token expired" branch is never taken: that error only comes out if it went in. */
  lemma ExpiredBranchUnreachable(e: Error)
    ensures ClassifyAsWritten(e) == TokenExpired ==> e == TokenExpired
  {
  }

  /**
   * The catch block with the subclass tested before its base class:
   * expired tokens, other token failures, and everything else that is
   * passed on as it is.
   */
  function Classify(e: Error): (r: Error)
    ensures e.TokenExpiredError? ==> r == TokenExpired
    ensures IsJsonWebTokenError(e) && !e.TokenExpiredError? ==> r == InvalidToken
    ensures !IsJsonWebTokenError(e) ==> r == e
  {
    if e.TokenExpiredError? then TokenExpired
    else if IsJsonWebTokenError(e) then InvalidToken
    else e
  }

  /** The two classifications differ on expired tokens only. */
  lemma ClassifyDiffersOnlyOnExpiry(e: Error)
    ensures Classify(e) == ClassifyAsWritten(e) <==> !e.TokenExpiredError?
  {
  }

  /** A missing, a malformed and an expired token each get their own error. */
  lemma TokenFailuresDistinct(malformed: string, expired: string, expiredAt: int)
    ensures Classify(NoToken) == NoToken
    ensures Classify(JsonWebTokenError(malformed)) == InvalidToken
    ensures Classify(TokenExpiredError(expired, expiredAt)) == TokenExpired
    ensures NoToken != InvalidToken && InvalidToken != TokenExpired && NoToken != TokenExpired
  {
  }

  /**
   * What the gate does with a header: the payload to attach to the
   * request, or the error passed to `next`.
   */
  function Gate(header: Option<string>, verify: Verifier, env: Env): (r: Result<Claims, Error>)
    ensures MissingToken(ExtractToken(header)) ==> r == Failure(NoToken)
    ensures !MissingToken(ExtractToken(header)) && verify(ExtractToken(header).value, Secret(env)).Success? ==>
              r == verify(ExtractToken(header).value, Secret(env))
    ensures r.Success? ==>
              !MissingToken(ExtractToken(header)) &&
              verify(ExtractToken(header).value, Secret(env)) == Success(r.value)
    ensures !MissingToken(ExtractToken(header)) && verify(ExtractToken(header).value, Secret(env)).Failure? ==>
              r == Failure(Classify(verify(ExtractToken(header).value, Secret(env)).error))
    ensures r.Failure? ==> !IsJsonWebTokenError(r.error)
  {
    var token := ExtractToken(header);
    if MissingToken(token) then Failure(Classify(NoToken))
    else
      match verify(token.value, Secret(env))
      case Success(claims) => Success(claims)
      case Failure(e) => Failure(Classify(e))
  }

  /** The parts of an incoming request the gate reads and writes. */
  class Request {
    const authorization: Option<string>
    var user: Option<Claims>

    constructor (authorization: Option<string>)
      ensures this.authorization == authorization && user == None
    {
      this.authorization := authorization;
      this.user := None;
    }
  }

  /**
   * `auth(req, res, next)`: on success `req.user` is the decoded payload
   * and `next` gets no error; otherwise `req.user` is untouched and
   * `next` gets the error.
   */
  method Authenticate(req: Request, verify: Verifier, env: Env) returns (next: Option<Error>)
    modifies req`user
    ensures Gate(req.authorization, verify, env).Success? ==>
              req.user == Some(Gate(req.authorization, verify, env).value) && next == None
    ensures Gate(req.authorization, verify, env).Failure? ==>
              req.user == old(req.user) && next == Some(Gate(req.authorization, verify, env).error)
  {
    var outcome := Gate(req.authorization, verify, env);
    if outcome.Success? {
      req.user := Some(outcome.value);
      next := None;
    } else {
      next := Some(outcome.error);
    }
  }
}
