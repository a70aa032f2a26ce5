/**
 * The client's default request headers: the session token is sent as an
 * `Authorization: Bearer <token>` header on every request.
 */
module AuthToken {
  import opened Wrappers

  const Authorization := "Authorization"

  function BearerHeader(token: string): string {
    "Bearer " + token
  }

  function WithoutAuthorization(headers: map<string, string>): (r: map<string, string>)
    ensures Authorization !in r
    ensures forall k :: k != Authorization ==> (k in r <==> k in headers)
    ensures forall k :: k in r ==> r[k] == headers[k]
  {
    headers - {Authorization}
  }

  /** The Authorization header a request made with these defaults carries, if any. */
  function AuthorizationHeader(headers: map<string, string>): (r: Option<string>)
    ensures r.Some? <==> Authorization in headers
    ensures r.Some? ==> r.value == headers[Authorization]
  {
    if Authorization in headers then Some(headers[Authorization]) else None
  }

  /** Removing the header twice is removing it once. */
  lemma ClearingIsIdempotent(headers: map<string, string>)
    ensures WithoutAuthorization(WithoutAuthorization(headers)) == WithoutAuthorization(headers)
  {
  }

  /** `a` and `b` agree on every header except Authorization. */
  ghost predicate SameOtherHeaders(a: map<string, string>, b: map<string, string>) {
    forall k :: k != Authorization ==> (k in a <==> k in b) && (k in a ==> a[k] == b[k])
  }

  /** `api.defaults.headers.common` */
  class ApiDefaults {
    var common: map<string, string>

    constructor (common: map<string, string>)
      ensures this.common == common
    {
      this.common := common;
    }
  }

  /** setAuthToken: a non-empty token is installed as a bearer header; an empty one removes the header. */
  method SetAuthToken(api: ApiDefaults, token: string)
    modifies api`common
    ensures token != "" ==> api.common == old(api.common)[Authorization := BearerHeader(token)]
    ensures token == "" ==> api.common == WithoutAuthorization(old(api.common))
    ensures SameOtherHeaders(api.common, old(api.common))
  {
    if token != "" {
      api.common := api.common[Authorization := BearerHeader(token)];
    } else {
      api.common := api.common - {Authorization};
    }
  }

  /** clearAuthToken: the header is removed and nothing else changes. */
  method ClearAuthToken(api: ApiDefaults)
    modifies api`common
    ensures api.common == WithoutAuthorization(old(api.common))
    ensures SameOtherHeaders(api.common, old(api.common))
  {
    api.common := api.common - {Authorization};
  }
}
