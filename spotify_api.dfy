/** The refresh-once wrapper of backend/utils/spotifyApi.js. The outcomes of the
    provider calls are inputs: `first` and `retry` are what the first and the second
    run of `apiCall` would produce, `grant` what the refresh grant (section 6 of
    RFC 6749, performed by the client library) would produce. */
module SpotifyApi {
  import opened Wrappers
  import opened Sessions

  /** A rejected provider call; `statusCode` is absent for failures that are not
      HTTP responses (network errors, for one). */
  datatype ApiError = ApiError(statusCode: Option<int>, message: string)

  /** HTTP 401: the access token is no longer accepted. */
  predicate IsUnauthorized<T>(r: Result<T, ApiError>) {
    r.Failure? && r.error.statusCode == Some(401)
  }

  /** Everything one `withTokenRefresh` does, as seen from outside. */
  datatype Trace<T> = Trace(
    result: Result<T, ApiError>,   // what it returns or throws
    calls: nat,                    // runs of apiCall
    refreshes: nat,                // refresh grants requested
    notified: seq<string>)         // tokens handed to onTokenRefresh

  /** The wrapper as a state machine: call once; on success or a non-401 failure
      stop; on a 401 refresh; if the refresh fails stop with its error; otherwise
      hand the new token to the callback and call once more, whatever that gives. */
  function Protocol<T>(first: Result<T, ApiError>, grant: Result<string, ApiError>,
                       retry: Result<T, ApiError>): (t: Trace<T>)
    // bounded: never more than two calls and one refresh
    ensures 1 <= t.calls <= 2 && t.refreshes <= 1 && |t.notified| <= t.refreshes
    // a refresh happens exactly when the first call was refused with 401
    ensures t.refreshes == 1 <==> IsUnauthorized(first)
    // the callback fires only after a refresh that succeeded, with its token
    ensures |t.notified| == 1 <==> IsUnauthorized(first) && grant.Success?
    ensures |t.notified| == 1 ==> t.notified[0] == grant.value
    // the call is repeated exactly when the callback fired
    ensures t.calls == 2 <==> |t.notified| == 1
    // the answer: the retry's when there was one, the refresh error when it failed,
    // the first call's otherwise
    ensures t.calls == 2 ==> t.result == retry
    ensures IsUnauthorized(first) && grant.Failure? ==> t.result == Failure(grant.error)
    ensures !IsUnauthorized(first) ==> t.result == first
  {
    if !IsUnauthorized(first) then Trace(first, 1, 0, [])
    else if grant.Failure? then Trace(Failure(grant.error), 1, 1, [])
    else Trace(retry, 2, 1, [grant.value])
  }

  /** The client made by `createUserSpotifyApi`: it holds the user's tokens. The two
      counters record how often the provider was called through it. */
  class SpotifyClient {
    var accessToken: string
    var refreshToken: string
    var apiCalls: nat
    var refreshes: nat

    constructor (accessToken: string, refreshToken: string)
      ensures this.accessToken == accessToken && this.refreshToken == refreshToken
      ensures apiCalls == 0 && refreshes == 0
    {
      this.accessToken := accessToken;
      this.refreshToken := refreshToken;
      apiCalls := 0;
      refreshes := 0;
    }

    /** One run of an authenticated call through this client. */
    method Call<T>(reply: Result<T, ApiError>) returns (r: Result<T, ApiError>)
      modifies this`apiCalls
      ensures r == reply
      ensures apiCalls == old(apiCalls) + 1
    {
      apiCalls := apiCalls + 1;
      r := reply;
    }

    /** `refreshAccessToken(spotifyApi)`: on success the client holds the new token
        and returns it; on failure the error is rethrown and the token is kept. */
    method RefreshAccessToken(grant: Result<string, ApiError>) returns (r: Result<string, ApiError>)
      modifies this`accessToken, this`refreshes
      ensures r == grant
      ensures accessToken == if grant.Success? then grant.value else old(accessToken)
      ensures refreshes == old(refreshes) + 1
    {
      refreshes := refreshes + 1;
      if grant.Success? {
        accessToken := grant.value;
      }
      r := grant;
    }
  }

  /** `withTokenRefresh(spotifyApi, apiCall, onTokenRefresh)`. Every route passes a
      callback that stores the new token in the request's session; `onTokenRefresh`
      is that session, or null when no callback is given. */
  method WithTokenRefresh<T>(api: SpotifyClient, first: Result<T, ApiError>,
                             grant: Result<string, ApiError>, retry: Result<T, ApiError>,
                             onTokenRefresh: Session?)
    returns (r: Result<T, ApiError>)
    modifies api, onTokenRefresh
    ensures var t := Protocol(first, grant, retry);
            && r == t.result
            && api.apiCalls == old(api.apiCalls) + t.calls
            && api.refreshes == old(api.refreshes) + t.refreshes
            && api.accessToken == (if t.notified == [] then old(api.accessToken) else t.notified[0])
            && (onTokenRefresh != null ==>
                  && onTokenRefresh.spotifyAccessToken ==
                       (if t.notified == [] then old(onTokenRefresh.spotifyAccessToken) else t.notified[0])
                  && onTokenRefresh.isAdmin == old(onTokenRefresh.isAdmin)
                  && onTokenRefresh.userId == old(onTokenRefresh.userId)
                  && onTokenRefresh.spotifyRefreshToken == old(onTokenRefresh.spotifyRefreshToken))
    ensures api.refreshToken == old(api.refreshToken)
    // a session that agreed with the client still agrees with it afterwards
    ensures onTokenRefresh != null && old(onTokenRefresh.spotifyAccessToken) == old(api.accessToken) ==>
              onTokenRefresh.spotifyAccessToken == api.accessToken
  {
    r := api.Call(first);
    if r.Failure? {
      if r.error.statusCode == Some(401) {
        var refreshed := api.RefreshAccessToken(grant);
        if refreshed.Failure? {
          return Failure(refreshed.error);
        }
        var newAccessToken := refreshed.value;
        if onTokenRefresh != null {
          onTokenRefresh.spotifyAccessToken := newAccessToken;
        }
        r := api.Call(retry);
      }
    }
  }
}
