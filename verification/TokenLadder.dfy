/** Access tokens and the two-cadence retry ladder, over runs of calls in the order they take the refresh lock.
    Times are seconds of a clock that does not go back. */
module TokenLadder {
  import opened Json

  const BUFFER: real := 300.0
  const NETWORK_RETRY: real := 10.0
  const FIRST_BACKOFF: real := 60.0
  const MAX_BACKOFF: real := 300.0

  datatype Access = Access(token: string, expiry: real)

  /** `access` is in memory, `cached` and `refreshToken` in storage. */
  datatype Auth = Auth(
    access: Option<Access>,
    cached: Option<Access>,
    refreshToken: Option<string>,
    lastAttempt: Option<real>,
    backoff: real,
    failures: nat,
    lastWasNetwork: bool)

  /** What a refresh request gets: a token (and perhaps a rotated refresh token), an HTTP error, no HTTP response,
      or something unusable. */
  datatype Response =
    | Granted(token: string, expiresIn: real, rotated: Option<string>, saves: bool)
    | HttpError(status: nat)
    | Unreachable
    | Unusable

  /** The clock readings of one call, in order: on entry, under the lock, before the backoff check, at the
      attempt, and at its answer. */
  datatype Readings = Readings(entry: real, locked: real, checked: real, attempted: real, answered: real)

  predicate Ordered(r: Readings) {
    r.entry <= r.locked <= r.checked <= r.attempted <= r.answered
  }

  datatype Request = Request(at: Readings, response: Response)

  /** How an attempt ended, as the ladder sees it. */
  datatype Ending = Succeeded | ServerFailed | NetworkFailed

  datatype Attempt = Attempt(at: real, ending: Ending)

  /** A token comes with its expiry and the reading that admitted it. */
  datatype Result = Token(access: Access, admittedAt: real) | NeedsAuthentication | RefreshFailed

  datatype Outcome = Outcome(auth: Auth, result: Result, attempt: Option<Attempt>)

  // ---------- one call ----------

  function MinReal(a: real, b: real): real {
    if a < b then a else b
  }

  /** Tokens are looked up in storage when memory has none. */
  function Loaded(a: Auth): Auth {
    if a.access.None? then a.(access := a.cached) else a
  }

  /** A call whose request the server never saw because there is no refresh token to send. */
  function Answer(a: Auth, response: Response): Response {
    if a.refreshToken.None? then Unusable else response
  }

  /** The answer brings another refresh token, and storage takes it. */
  predicate Rotates(g: Response)
    requires g.Granted?
  {
    g.rotated.Some? && g.rotated.value != "" && g.saves
  }

  function Refreshed(a: Auth, g: Response, answered: real): Auth
    requires g.Granted?
  {
    var minted := Access(g.token, answered + g.expiresIn);
    a.(access := Some(minted),
       cached := if g.saves then Some(minted) else a.cached,
       refreshToken := if Rotates(g) then g.rotated else a.refreshToken,
       backoff := FIRST_BACKOFF, failures := 0, lastWasNetwork := false)
  }

  function EndingOf(response: Response): Ending {
    match response
    case Granted(token, _, _, _) => if token == "" then ServerFailed else Succeeded
    case Unreachable => NetworkFailed
    case _ => ServerFailed
  }

  /** A failed attempt: the network leaves the ladder alone, anything else climbs it; a rejected credential is
      cleared from storage. */
  function Failed(a: Auth, response: Response): Auth {
    if response.Unreachable? then a.(lastWasNetwork := true)
    else
      var counted := if response.HttpError? then a.(failures := a.failures + 1) else a;
      var rejected := response.HttpError? && response.status in {401, 403};
      var cleared := if rejected then counted.(cached := None, refreshToken := None) else counted;
      cleared.(lastWasNetwork := false, backoff := MinReal(a.backoff * 2.0, MAX_BACKOFF))
  }

  function RetryAfter(a: Auth): real {
    if a.lastWasNetwork then NETWORK_RETRY else a.backoff
  }

  predicate Waits(a: Auth, checked: real) {
    a.lastAttempt.Some? && checked - a.lastAttempt.value < RetryAfter(a)
  }

  /** The token in hand, if the reading under the lock admits it. */
  function Fallback(access: Access, locked: real): Result {
    if access.expiry - locked > 0.0 then Token(access, locked) else RefreshFailed
  }

  /** One attempt to refresh a token about to expire. */
  function TryRefresh(a: Auth, access: Access, q: Request): Outcome {
    var response := Answer(a, q.response);
    var ending := EndingOf(response);
    var tried := a.(lastAttempt := Some(q.at.attempted));
    var attempt := Some(Attempt(q.at.attempted, ending));
    if ending == Succeeded then
      var b := Refreshed(tried, response, q.at.answered);
      Outcome(b, Token(b.access.value, q.at.answered), attempt)
    else Outcome(Failed(tried, response), Fallback(access, q.at.locked), attempt)
  }

  function GetValidToken(before: Auth, q: Request): Outcome {
    var a := Loaded(before);
    if a.access.None? then Outcome(a, NeedsAuthentication, None)
    else
      var access := a.access.value;
      if access.expiry - q.at.entry > BUFFER then Outcome(a, Token(access, q.at.entry), None)
      else if access.expiry - q.at.locked > BUFFER then Outcome(a, Token(access, q.at.locked), None)
      else if Waits(a, q.at.checked) then Outcome(a, Fallback(access, q.at.locked), None)
      else TryRefresh(a, access, q)
  }

  /** A token is never expired at the reading that admitted it, unless the server has just granted it expired; the
      call fails to give one only if there is none or the one in hand has expired. */
  lemma AdmittedTokensAreValid(a: Auth, q: Request)
    requires Ordered(q.at)
    ensures var r := GetValidToken(a, q);
            && (r.result.Token? ==>
                  (r.result.access.expiry > r.result.admittedAt
                   <==> !(r.attempt.Some? && r.attempt.value.ending == Succeeded && q.response.expiresIn <= 0.0)))
            && (r.result.NeedsAuthentication? <==> Loaded(a).access.None?)
            && (r.result.RefreshFailed? ==> Loaded(a).access.value.expiry <= q.at.locked)
  {
  }

  /** The server turned the credential down. */
  predicate Rejection(r: Response) {
    r == HttpError(401) || r == HttpError(403)
  }

  /** What a call does to memory and storage. Without an attempt, or when it fails otherwise, storage stays; an
      answer of 401 or 403 to a credential that was there empties it; a granted answer puts the new token and its
      expiry in memory, and in storage if that takes them, with the rotated refresh token if there is one. */
  lemma StorageExactly(a: Auth, q: Request)
    ensures var r := GetValidToken(a, q);
            var sent := r.attempt.Some? && a.refreshToken.Some?;
            var granted := sent && q.response.Granted? && q.response.token != "";
            && (sent && Rejection(q.response) ==> r.auth.cached == None && r.auth.refreshToken == None)
            && (!granted && !(sent && Rejection(q.response)) ==>
                  r.auth.cached == a.cached && r.auth.refreshToken == a.refreshToken)
            && (!granted ==> r.auth.access == if a.access.Some? then a.access else a.cached)
            && (granted ==>
                  var minted := Access(q.response.token, q.at.answered + q.response.expiresIn);
                  && r.auth.access == Some(minted) && r.result == Token(minted, q.at.answered)
                  && r.auth.cached == (if q.response.saves then Some(minted) else a.cached)
                  && (q.response.rotated in {None, Some("")} || !q.response.saves ==>
                        r.auth.refreshToken == a.refreshToken)
                  && (q.response.rotated !in {None, Some("")} && q.response.saves ==>
                        r.auth.refreshToken == q.response.rotated)
                  && r.auth.failures == 0)
            && (!granted ==>
                  r.auth.failures == a.failures + if sent && q.response.HttpError? then 1 else 0)
            && (r.result.Token? ==> r.auth.access == Some(r.result.access))
  {
  }

  // ---------- runs ----------

  /** Each call reads the clock no earlier than the calls before it. */
  ghost predicate Run(first: Auth, requests: seq<Request>, now: real, a: Auth, attempts: seq<Attempt>) {
    if requests == [] then a == first && attempts == []
    else
      var n := |requests| - 1;
      var q := requests[n];
      exists before, earlier, prior ::
        && Run(first, requests[..n], prior, before, earlier)
        && Ordered(q.at) && prior <= q.at.entry && now == q.at.answered
        && var r := GetValidToken(before, q);
        && a == r.auth && attempts == if r.attempt.Some? then earlier + [r.attempt.value] else earlier
  }

  predicate Initial(a: Auth) {
    a.lastAttempt == None && a.backoff == FIRST_BACKOFF && a.failures == 0 && !a.lastWasNetwork
  }

  function Pow2(k: nat): real {
    if k == 0 then 1.0 else 2.0 * Pow2(k - 1)
  }

  /** Server failures since the last success, network failures between them not counted. */
  function Rungs(attempts: seq<Attempt>): nat {
    if attempts == [] then 0
    else
      var most := attempts[..|attempts| - 1];
      match attempts[|attempts| - 1].ending
      case Succeeded => 0
      case ServerFailed => Rungs(most) + 1
      case NetworkFailed => Rungs(most)
  }

  /** How long to wait after these attempts before another. */
  function Required(attempts: seq<Attempt>): real {
    if attempts != [] && attempts[|attempts| - 1].ending == NetworkFailed then NETWORK_RETRY
    else MinReal(FIRST_BACKOFF * Pow2(Rungs(attempts)), MAX_BACKOFF)
  }

  ghost predicate Spaced(attempts: seq<Attempt>) {
    forall i :: 0 < i < |attempts| ==> attempts[i].at - attempts[i - 1].at >= Required(attempts[..i])
  }

  /** The ladder's fields say what the history says. */
  ghost predicate Faithful(a: Auth, attempts: seq<Attempt>) {
    && a.backoff == MinReal(FIRST_BACKOFF * Pow2(Rungs(attempts)), MAX_BACKOFF)
    && (a.lastWasNetwork <==> attempts != [] && attempts[|attempts| - 1].ending == NetworkFailed)
    && a.lastAttempt == if attempts == [] then None else Some(attempts[|attempts| - 1].at)
  }

  lemma Pow2Positive(k: nat)
    ensures Pow2(k) >= 1.0
  {
  }

  lemma CallKeepsFaithful(a: Auth, q: Request, attempts: seq<Attempt>)
    requires Faithful(a, attempts) && Ordered(q.at)
    ensures var r := GetValidToken(a, q);
            && (r.attempt.None? ==> Faithful(r.auth, attempts))
            && (r.attempt.Some? ==>
                  && Faithful(r.auth, attempts + [r.attempt.value])
                  && r.attempt.value.at == q.at.attempted
                  && (attempts != [] ==> r.attempt.value.at - attempts[|attempts| - 1].at >= Required(attempts)))
  {
    var r := GetValidToken(a, q);
    Pow2Positive(Rungs(attempts));
    if r.attempt.Some? {
      var more := attempts + [r.attempt.value];
      assert more[..|more| - 1] == attempts;
      assert Pow2(Rungs(attempts) + 1) == 2.0 * Pow2(Rungs(attempts));
    }
  }

  /** How an attempt ends for the ladder: with a refresh token to send, as the server answered; without, as a
      failure of the server's kind. */
  lemma EndingExactly(a: Auth, q: Request)
    requires GetValidToken(a, q).attempt.Some?
    ensures var ending := GetValidToken(a, q).attempt.value.ending;
            && (ending == Succeeded <==> a.refreshToken.Some? && q.response.Granted? && q.response.token != "")
            && (ending == NetworkFailed <==> a.refreshToken.Some? && q.response.Unreachable?)
  {
  }

  /** A call attempts a refresh exactly when there is a token, it is within five minutes of its expiry on entry and
      under the lock, and the wait that the attempts so far require is over. */
  lemma AttemptedExactly(a: Auth, q: Request, attempts: seq<Attempt>)
    requires Faithful(a, attempts)
    ensures var access := if a.access.Some? then a.access else a.cached;
            GetValidToken(a, q).attempt.Some? <==>
              && access.Some?
              && access.value.expiry - q.at.entry <= 300.0 && access.value.expiry - q.at.locked <= 300.0
              && (attempts != [] ==>
                    var last, climbed := attempts[|attempts| - 1], 60.0 * Pow2(Rungs(attempts));
                    q.at.checked - last.at >= if last.ending == NetworkFailed then 10.0
                                              else if climbed < 300.0 then climbed else 300.0)
  {
  }

  lemma SpacedMore(attempts: seq<Attempt>, next: Attempt)
    requires Spaced(attempts)
    requires attempts != [] ==> next.at - attempts[|attempts| - 1].at >= Required(attempts)
    ensures Spaced(attempts + [next])
  {
    var more := attempts + [next];
    forall i | 0 < i < |more| ensures more[i].at - more[i - 1].at >= Required(more[..i]) {
      assert more[..i] == attempts[..i];
      assert i == |attempts| ==> attempts[..i] == attempts;
    }
  }

  lemma {:induction false} RunIsFaithful(first: Auth, requests: seq<Request>, now: real, a: Auth,
      attempts: seq<Attempt>)
    requires Initial(first) && Run(first, requests, now, a, attempts)
    ensures Faithful(a, attempts) && Spaced(attempts)
  {
    if requests != [] {
      var n := |requests| - 1;
      var q := requests[n];
      var before, earlier, prior :|
        && Run(first, requests[..n], prior, before, earlier)
        && Ordered(q.at) && prior <= q.at.entry && now == q.at.answered
        && var r := GetValidToken(before, q);
        && a == r.auth && attempts == if r.attempt.Some? then earlier + [r.attempt.value] else earlier;
      RunIsFaithful(first, requests[..n], prior, before, earlier);
      CallKeepsFaithful(before, q, earlier);
      var made := GetValidToken(before, q).attempt;
      if made.Some? {
        SpacedMore(earlier, made.value);
      }
    }
  }

  /** Over any run, the attempt after k server failures in a row (network failures between them not counted)
      comes at least min(60 * 2^k, 300) seconds after the one before; after a network failure, at least 10; a
      success starts the count again. */
  lemma {:induction false} AttemptsAreSpaced(first: Auth, requests: seq<Request>, now: real, a: Auth,
      attempts: seq<Attempt>, i: nat)
    requires Initial(first) && Run(first, requests, now, a, attempts) && 0 < i < |attempts|
    ensures attempts[i - 1].ending == NetworkFailed ==> attempts[i].at - attempts[i - 1].at >= 10.0
    ensures attempts[i - 1].ending == Succeeded ==> attempts[i].at - attempts[i - 1].at >= 60.0
    ensures attempts[i - 1].ending == ServerFailed ==>
              attempts[i].at - attempts[i - 1].at >= MinReal(60.0 * Pow2(Rungs(attempts[..i])), 300.0)
  {
    RunIsFaithful(first, requests, now, a, attempts);
    assert attempts[..i][i - 1] == attempts[i - 1];
  }

  // ---------- a rejected credential ----------

  /** Once storage has no refresh token, no call of the run brings a new token: the one in hand is given out
      while it lasts, and the ladder only climbs. */
  lemma {:induction false} NothingAfterRejection(first: Auth, requests: seq<Request>, now: real, a: Auth,
      attempts: seq<Attempt>)
    requires Run(first, requests, now, a, attempts) && first.refreshToken.None? && first.cached.None?
    ensures a.refreshToken.None? && a.cached.None? && a.access == first.access
    ensures forall t :: t in attempts ==> t.ending == ServerFailed
  {
    if requests != [] {
      var n := |requests| - 1;
      var q := requests[n];
      var before, earlier, prior :|
        && Run(first, requests[..n], prior, before, earlier)
        && Ordered(q.at) && prior <= q.at.entry && now == q.at.answered
        && var r := GetValidToken(before, q);
        && a == r.auth && attempts == if r.attempt.Some? then earlier + [r.attempt.value] else earlier;
      NothingAfterRejection(first, requests[..n], prior, before, earlier);
    }
  }

  /** So a credential turned down once is never tried again: from a call answered 401 or 403 on, no call of the run
      brings a new token, and every attempt is made without a credential. */
  lemma {:induction false} RejectedForGood(before: Auth, q: Request, requests: seq<Request>, now: real, a: Auth,
      attempts: seq<Attempt>)
    requires before.refreshToken.Some? && Rejection(q.response) && GetValidToken(before, q).attempt.Some?
    requires Run(GetValidToken(before, q).auth, requests, now, a, attempts)
    ensures a.refreshToken == None && a.cached == None
    ensures a.access == if before.access.Some? then before.access else before.cached
    ensures forall t :: t in attempts ==> t.ending == ServerFailed
  {
    StorageExactly(before, q);
    NothingAfterRejection(GetValidToken(before, q).auth, requests, now, a, attempts);
  }

  /** Without an access token, in memory or cached, no call ever tries to refresh, though storage may hold a
      refresh token that would work. */
  lemma {:induction false} NeverTriedWithoutAccess(first: Auth, requests: seq<Request>, now: real, a: Auth,
      attempts: seq<Attempt>)
    requires Run(first, requests, now, a, attempts) && first.access.None? && first.cached.None?
    ensures a == first && attempts == []
  {
    if requests != [] {
      var n := |requests| - 1;
      var q := requests[n];
      var before, earlier, prior :|
        && Run(first, requests[..n], prior, before, earlier)
        && Ordered(q.at) && prior <= q.at.entry && now == q.at.answered
        && var r := GetValidToken(before, q);
        && a == r.auth && attempts == if r.attempt.Some? then earlier + [r.attempt.value] else earlier;
      NeverTriedWithoutAccess(first, requests[..n], prior, before, earlier);
    }
  }
}
