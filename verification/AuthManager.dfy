/** The auth manager as the object it is, its methods proved against the calls of `TokenLadder`. */
module AuthManager {
  import opened Json
  import opened TokenLadder

  /** How a refresh ends for its caller: granted, or one of the two exceptions. */
  datatype Refresh = Minted | RefreshError | NetworkError

  class Manager {
    var accessToken: Option<string>
    var tokenExpiry: Option<real>
    var lastRefreshAttempt: Option<real>
    var refreshBackoff: real
    var consecutiveFailures: nat
    var lastFailureWasNetwork: bool
    /** The encrypted storage. */
    var storedAccess: Option<Access>
    var storedRefresh: Option<string>

    predicate Valid()
      reads this
    {
      accessToken.Some? <==> tokenExpiry.Some?
    }

    function View(): Auth
      reads this
      requires Valid()
    {
      Auth(if accessToken.Some? then Some(Access(accessToken.value, tokenExpiry.value)) else None,
           storedAccess, storedRefresh, lastRefreshAttempt, refreshBackoff, consecutiveFailures, lastFailureWasNetwork)
    }

    constructor (storedAccess: Option<Access>, storedRefresh: Option<string>)
      ensures Valid() && Initial(View()) && View().access == storedAccess
      ensures View().cached == storedAccess && View().refreshToken == storedRefresh
    {
      this.storedAccess, this.storedRefresh := storedAccess, storedRefresh;
      accessToken := if storedAccess.Some? then Some(storedAccess.value.token) else None;
      tokenExpiry := if storedAccess.Some? then Some(storedAccess.value.expiry) else None;
      lastRefreshAttempt, refreshBackoff := None, FIRST_BACKOFF;
      consecutiveFailures, lastFailureWasNetwork := 0, false;
    }

    method LoadCachedTokens()
      requires Valid() && accessToken.None?
      modifies `accessToken, `tokenExpiry
      ensures Valid() && View() == Loaded(old(View()))
    {
      if storedAccess.Some? {
        accessToken, tokenExpiry := Some(storedAccess.value.token), Some(storedAccess.value.expiry);
      }
    }

    /** A rotated refresh token is stored before the access token; a rejected credential is cleared. The ladder's
        backoff is left to the caller, but for a success, which resets it. */
    method RefreshAccessToken(response: Response, answered: real) returns (r: Refresh)
      requires Valid()
      modifies `accessToken, `tokenExpiry, `storedAccess, `storedRefresh, `refreshBackoff, `consecutiveFailures,
               `lastFailureWasNetwork
      ensures Valid()
      ensures var sent := old(storedRefresh).Some?;
              && (r == Minted <==> sent && response.Granted? && response.token != "")
              && (r == NetworkError <==> sent && response.Unreachable?)
              && (sent && Rejection(response) ==> storedAccess == None && storedRefresh == None)
              && (r != Minted && !(sent && Rejection(response)) ==>
                    storedAccess == old(storedAccess) && storedRefresh == old(storedRefresh))
              && (r != Minted ==> accessToken == old(accessToken) && tokenExpiry == old(tokenExpiry))
              && consecutiveFailures == (if r == Minted then 0
                                         else old(consecutiveFailures) + if sent && response.HttpError? then 1 else 0)
      ensures r == Minted ==>
                && accessToken == Some(response.token) && tokenExpiry == Some(answered + response.expiresIn)
                && storedAccess == (if response.saves then Some(Access(response.token, answered + response.expiresIn))
                                    else old(storedAccess))
                && storedRefresh == (if Rotates(response) then response.rotated else old(storedRefresh))
      ensures var got := Answer(old(View()), response);
              && (r == Minted <==> EndingOf(got) == Succeeded)
              && (r == NetworkError <==> EndingOf(got) == NetworkFailed)
              && (r == Minted ==> View() == Refreshed(old(View()), got, answered))
              && (r != Minted ==> View() == Failed(old(View()), got).(backoff := old(refreshBackoff),
                                                                      lastWasNetwork := old(lastFailureWasNetwork)))
    {
      if storedRefresh.None? {
        return RefreshError;
      }
      match response {
        case HttpError(status) =>
          consecutiveFailures := consecutiveFailures + 1;
          if status == 401 || status == 403 {
            storedAccess, storedRefresh := None, None;
          }
          return RefreshError;
        case Unreachable => return NetworkError;
        case Unusable => return RefreshError;
        case Granted(token, expiresIn, rotated, saves) =>
          if token == "" {
            return RefreshError;
          }
          var expiry := answered + expiresIn;
          if rotated.Some? && rotated.value != "" && saves {
            storedRefresh := rotated;
          }
          if saves {
            storedAccess := Some(Access(token, expiry));
          }
          accessToken, tokenExpiry := Some(token), Some(expiry);
          consecutiveFailures, refreshBackoff, lastFailureWasNetwork := 0, FIRST_BACKOFF, false;
          return Minted;
      }
    }

    /** The attempt under the lock, and what the caller gets when it fails. */
    method AttemptRefresh(q: Request) returns (result: Result)
      requires Valid() && accessToken.Some?
      modifies this
      ensures Valid()
      ensures var o := TryRefresh(old(View()), old(View()).access.value, q);
              View() == o.auth && result == o.result
    {
      var access := Access(accessToken.value, tokenExpiry.value);
      lastRefreshAttempt := Some(q.at.attempted);
      var r := RefreshAccessToken(q.response, q.at.answered);
      match r {
        case Minted =>
          return Token(Access(accessToken.value, tokenExpiry.value), q.at.answered);
        case NetworkError =>
          lastFailureWasNetwork := true;
        case RefreshError =>
          lastFailureWasNetwork := false;
          refreshBackoff := if refreshBackoff * 2.0 < MAX_BACKOFF then refreshBackoff * 2.0 else MAX_BACKOFF;
      }
      if access.expiry - q.at.locked > 0.0 {
        return Token(access, q.at.locked);
      }
      return RefreshFailed;
    }

    method GetValidToken(q: Request) returns (result: Result)
      requires Valid()
      modifies this
      ensures Valid()
      ensures var o := TokenLadder.GetValidToken(old(View()), q);
              View() == o.auth && result == o.result
    {
      if accessToken.None? {
        LoadCachedTokens();
      }
      if accessToken.None? {
        return NeedsAuthentication;
      }
      var access := Access(accessToken.value, tokenExpiry.value);
      if access.expiry - q.at.entry > BUFFER {
        return Token(access, q.at.entry);
      }
      if access.expiry - q.at.locked > BUFFER {
        return Token(access, q.at.locked);
      }
      if lastRefreshAttempt.Some? {
        var retryAfter := if lastFailureWasNetwork then NETWORK_RETRY else refreshBackoff;
        if q.at.checked - lastRefreshAttempt.value < retryAfter {
          if access.expiry - q.at.locked > 0.0 {
            return Token(access, q.at.locked);
          }
          return RefreshFailed;
        }
      }
      result := AttemptRefresh(q);
    }
  }
}
