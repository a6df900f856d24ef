/** Request admission: the `require_auth` decision chain (API key, then Bearer token, then an
    any-of role check) and the `rate_limit` sliding-window log.

    The key validator and the token verifier are parameters, so that the decision can be
    stated for any of them; the `X-API-Key` and `Authorization` headers are plain inputs
    (`None` when the header is absent). */
module Decorators {
  import opened Wrappers
  import opened Text
  import opened Credentials
  import Jwt

  /** The four 401 messages of `require_auth`. */
  datatype Denial = InvalidApiKey | InvalidJwt | MissingBearer | NoCredentials

  /** What the decorator does with a request: answer 401 or 403, or call the view after
      setting `g.current_user`, `g.user_roles` and `g.authenticated`. */
  datatype Decision =
    | Unauthorized(reason: Denial)
    | Forbidden(required: seq<string>, userRoles: seq<string>)
    | Admitted(currentUser: Option<string>, userRoles: seq<string>, authenticated: bool)

  /** The outcome of the authentication steps, before roles are looked at. */
  datatype Authentication = Reject(reason: Denial) | Proceed(info: Option<AuthInfo>)

  const BearerPrefix: string := "Bearer "

  /** The API-key and JWT steps of `require_auth`, in source order. */
  function Authenticate(apiKeyRequired: bool, jwtRequired: bool, apiKeyHeader: Option<string>,
                        authorization: Option<string>,
                        validateKey: Option<string> -> Option<AuthInfo>,
                        verifyToken: string -> Option<AuthInfo>): Authentication
  {
    var keyInfo := if apiKeyRequired then validateKey(apiKeyHeader) else None;
    if apiKeyRequired && keyInfo.None? then Reject(InvalidApiKey)
    else if jwtRequired && keyInfo.None? then
      var header := authorization.GetOr("");
      if StartsWith(header, BearerPrefix) then
        var tokenInfo := verifyToken(header[|BearerPrefix|..]);
        if tokenInfo.None? then Reject(InvalidJwt) else Proceed(tokenInfo)
      else Reject(MissingBearer)
    else if (apiKeyRequired || jwtRequired) && keyInfo.None? then Reject(NoCredentials)
    else Proceed(keyInfo)
  }

  /** `any(role in user_roles for role in roles)` */
  predicate AnyRole(required: seq<string>, held: seq<string>) {
    exists role :: role in required && role in held
  }

  /** The decision of `require_auth(api_key_required, jwt_required, roles)`; an empty `roles`
      stands for both `None` and `[]`. The last 401 ("API key or JWT token required") can
      never be produced. */
  function Admit(apiKeyRequired: bool, jwtRequired: bool, roles: seq<string>,
                 apiKeyHeader: Option<string>, authorization: Option<string>,
                 validateKey: Option<string> -> Option<AuthInfo>,
                 verifyToken: string -> Option<AuthInfo>): (d: Decision)
    ensures d != Unauthorized(NoCredentials)
    ensures !apiKeyRequired && !jwtRequired && roles == [] ==> d == Admitted(None, [], false)
  {
    match Authenticate(apiKeyRequired, jwtRequired, apiKeyHeader, authorization, validateKey, verifyToken)
    case Reject(reason) => Unauthorized(reason)
    case Proceed(info) =>
      if roles != [] && info.Some? && !AnyRole(roles, info.value.roles) then
        Forbidden(roles, info.value.roles)
      else if info.Some? then Admitted(info.value.user, info.value.roles, true)
      else Admitted(None, [], false)
  }

  // ---------------------------------------------------------------------------------------
  // Properties of the decision chain
  // ---------------------------------------------------------------------------------------

  /** A required API key that is missing or invalid gives 401, whatever the token verifier
      would say: the JWT step is never reached. */
  lemma MissingKeyRejectedBeforeJwt(jwtRequired: bool, roles: seq<string>, apiKeyHeader: Option<string>,
                                    authorization: Option<string>,
                                    validateKey: Option<string> -> Option<AuthInfo>,
                                    verify1: string -> Option<AuthInfo>, verify2: string -> Option<AuthInfo>)
    requires validateKey(apiKeyHeader).None?
    ensures Admit(true, jwtRequired, roles, apiKeyHeader, authorization, validateKey, verify1) == Unauthorized(InvalidApiKey)
    ensures Admit(true, jwtRequired, roles, apiKeyHeader, authorization, validateKey, verify2) == Unauthorized(InvalidApiKey)
  {
  }

  /** A valid API key skips the JWT step even when a token is required: neither the
      `Authorization` header nor the verifier affects the decision. */
  lemma ValidKeySkipsJwt(jwtRequired: bool, roles: seq<string>, apiKeyHeader: Option<string>,
                         auth1: Option<string>, auth2: Option<string>,
                         validateKey: Option<string> -> Option<AuthInfo>,
                         verify1: string -> Option<AuthInfo>, verify2: string -> Option<AuthInfo>)
    requires validateKey(apiKeyHeader).Some?
    ensures Admit(true, jwtRequired, roles, apiKeyHeader, auth1, validateKey, verify1) ==
            Admit(true, jwtRequired, roles, apiKeyHeader, auth2, validateKey, verify2)
  {
  }

  /** On the JWT step, a header not starting with "Bearer " gives 401; otherwise the verifier
      sees the header minus its first seven characters and nothing else. */
  lemma BearerTokenExtraction(apiKeyRequired: bool, roles: seq<string>, apiKeyHeader: Option<string>,
                              header: string, validateKey: Option<string> -> Option<AuthInfo>,
                              verify1: string -> Option<AuthInfo>, verify2: string -> Option<AuthInfo>)
    requires !apiKeyRequired
    ensures !StartsWith(header, "Bearer ") ==>
      Admit(apiKeyRequired, true, roles, apiKeyHeader, Some(header), validateKey, verify1) == Unauthorized(MissingBearer)
    ensures StartsWith(header, "Bearer ") && verify1(header[7..]) == verify2(header[7..]) ==>
      Admit(apiKeyRequired, true, roles, apiKeyHeader, Some(header), validateKey, verify1) ==
      Admit(apiKeyRequired, true, roles, apiKeyHeader, Some(header), validateKey, verify2)
    ensures Admit(apiKeyRequired, true, roles, apiKeyHeader, None, validateKey, verify1) == Unauthorized(MissingBearer)
  {
  }

  /** Roles are any-of: the answer is 403 exactly when roles are required, authentication
      produced a caller, and none of the required roles is among the caller's roles. */
  lemma ForbiddenIffNoRequiredRole(apiKeyRequired: bool, jwtRequired: bool, roles: seq<string>,
                                   apiKeyHeader: Option<string>, authorization: Option<string>,
                                   validateKey: Option<string> -> Option<AuthInfo>,
                                   verifyToken: string -> Option<AuthInfo>)
    ensures var a := Authenticate(apiKeyRequired, jwtRequired, apiKeyHeader, authorization, validateKey, verifyToken);
      Admit(apiKeyRequired, jwtRequired, roles, apiKeyHeader, authorization, validateKey, verifyToken).Forbidden? <==>
      (roles != [] && a.Proceed? && a.info.Some? && !AnyRole(roles, a.info.value.roles))
  {
  }

  /** Without an authenticated caller the role check is skipped: the view runs anonymously
      even when roles are listed. */
  lemma RoleCheckNeedsCaller(apiKeyRequired: bool, jwtRequired: bool, roles: seq<string>,
                             apiKeyHeader: Option<string>, authorization: Option<string>,
                             validateKey: Option<string> -> Option<AuthInfo>,
                             verifyToken: string -> Option<AuthInfo>)
    requires Authenticate(apiKeyRequired, jwtRequired, apiKeyHeader, authorization, validateKey, verifyToken) == Proceed(None)
    ensures Admit(apiKeyRequired, jwtRequired, roles, apiKeyHeader, authorization, validateKey, verifyToken) == Admitted(None, [], false)
    ensures !apiKeyRequired && !jwtRequired
  {
  }

  /** The `/admin` route (`jwt_required=True, roles=['admin']`) with tokens issued by the
      package's `create_jwt_token` and presented before they expire: a token carrying only `user` gets 403, a token
      carrying `admin` is admitted with its user and roles. */
  lemma {:induction false} AdminRouteWithIssuedTokens(p: Jwt.Primitives, secret: string, hours: int,
                                                      issued: int, now: int,
                                                      validateKey: Option<string> -> Option<AuthInfo>)
    requires Jwt.Sound(p) && now <= issued + hours * Jwt.MicrosPerHour
    ensures var userToken := Jwt.CreateToken(p, secret, hours, "user", Some(["user"]), issued);
      Admit(false, true, ["admin"], None, Some("Bearer " + userToken), validateKey,
            t => Jwt.VerifyToken(p, t, now)) == Forbidden(["admin"], ["user"])
    ensures var adminToken := Jwt.CreateToken(p, secret, hours, "admin", Some(["admin", "user"]), issued);
      Admit(false, true, ["admin"], None, Some("Bearer " + adminToken), validateKey,
            t => Jwt.VerifyToken(p, t, now)) == Admitted(Some("admin"), ["admin", "user"], true)
  {
    var userToken := Jwt.CreateToken(p, secret, hours, "user", Some(["user"]), issued);
    var adminToken := Jwt.CreateToken(p, secret, hours, "admin", Some(["admin", "user"]), issued);
    Jwt.VerifyCreatedToken(p, secret, hours, "user", Some(["user"]), issued, now);
    Jwt.VerifyCreatedToken(p, secret, hours, "admin", Some(["admin", "user"]), issued, now);
    assert ("Bearer " + userToken)[7..] == userToken;
    assert ("Bearer " + adminToken)[7..] == adminToken;
    assert StartsWith("Bearer " + userToken, BearerPrefix);
    assert StartsWith("Bearer " + adminToken, BearerPrefix);
    assert !AnyRole(["admin"], ["user"]);
    assert AnyRole(["admin"], ["admin", "user"]) by { assert "admin" in ["admin"]; }
  }

  // ---------------------------------------------------------------------------------------
  // Rate limiting
  // ---------------------------------------------------------------------------------------

  datatype RateOutcome = Allowed | Limited(retryAfter: int)

  type RateTable = map<string, seq<real>>

  /** `[ts for ts in log if ts > window_start]` */
  function Recent(log: seq<real>, windowStart: real): (kept: seq<real>)
    ensures |kept| <= |log|
    ensures forall t :: t in kept <==> t in log && t > windowStart
  {
    if log == [] then []
    else Recent(log[..|log| - 1], windowStart) +
         (if log[|log| - 1] > windowStart then [log[|log| - 1]] else [])
  }

  /** Pruning a log piecewise: the kept timestamps of two stretches of a log, in their
      order, are the kept timestamps of the whole. */
  lemma {:induction false} RecentConcat(a: seq<real>, b: seq<real>, windowStart: real)
    ensures Recent(a + b, windowStart) == Recent(a, windowStart) + Recent(b, windowStart)
    decreases |b|
  {
    if b == [] {
      assert a + b == a;
    } else {
      assert (a + b)[..|a + b| - 1] == a + b[..|b| - 1];
      RecentConcat(a, b[..|b| - 1], windowStart);
    }
  }

  /** One pass through the `rate_limit(max_requests, window_seconds)` wrapper at instant `now`
      (seconds, as `time.time()` returns them): the outcome and the new table. The step prunes
      and possibly appends to the caller's own log and leaves every other client's log as it
      was. A request is refused with 429 exactly when the pruned log already holds
      `maxRequests` entries; a refused request is not recorded, an accepted one appends
      exactly `now`. */
  function RateStep(table: RateTable, key: string, now: real, maxRequests: int,
                    windowSeconds: int): (r: (RateOutcome, RateTable))
    ensures var kept := Recent(if key in table then table[key] else [], now - windowSeconds as real);
      r.1.Keys == table.Keys + {key} &&
      (forall k :: k in table && k != key ==> r.1[k] == table[k]) &&
      (r.0.Limited? <==> |kept| >= maxRequests) &&
      (r.0.Limited? ==> r.0.retryAfter == windowSeconds && r.1[key] == kept) &&
      (r.0.Allowed? ==> r.1[key] == kept + [now])
  {
    var kept := Recent(if key in table then table[key] else [], now - windowSeconds as real);
    if |kept| >= maxRequests then (Limited(windowSeconds), table[key := kept])
    else (Allowed, table[key := kept + [now]])
  }

  /** The module-level `_rate_limit_storage` and the body of the `rate_limit` wrapper. */
  class RateLimiter {
    var table: RateTable

    constructor ()
      ensures table == map[]
    {
      table := map[];
    }

    method Hit(key: string, now: real, maxRequests: int, windowSeconds: int) returns (outcome: RateOutcome)
      modifies this`table
      ensures (outcome, table) == RateStep(old(table), key, now, maxRequests, windowSeconds)
    {
      var log := if key in table then table[key] else [];
      var kept := Prune(log, now - windowSeconds as real);
      table := table[key := kept];
      if |table[key]| >= maxRequests {
        return Limited(windowSeconds);
      }
      table := table[key := table[key] + [now]];
      assert table == old(table)[key := kept + [now]];
      outcome := Allowed;
    }
  }

  /** The list comprehension that keeps the timestamps newer than `windowStart`. */
  method Prune(log: seq<real>, windowStart: real) returns (kept: seq<real>)
    ensures kept == Recent(log, windowStart)
  {
    kept := [];
    var i := 0;
    while i < |log|
      invariant 0 <= i <= |log|
      invariant kept == Recent(log[..i], windowStart)
    {
      if log[i] > windowStart {
        kept := kept + [log[i]];
      }
      assert log[..i + 1][..i] == log[..i];
      i := i + 1;
    }
    assert log[..|log|] == log;
  }

  /** Every client's log holds at most `maxRequests` timestamps. */
  predicate Bounded(table: RateTable, maxRequests: int) {
    forall k :: k in table ==> |table[k]| <= maxRequests
  }

  /** Under one fixed limit, no log ever grows beyond the limit. */
  lemma RateStepKeepsBound(table: RateTable, key: string, now: real, maxRequests: int, windowSeconds: int)
    requires maxRequests >= 0 && Bounded(table, maxRequests)
    ensures Bounded(RateStep(table, key, now, maxRequests, windowSeconds).1, maxRequests)
  {
    var log := if key in table then table[key] else [];
    assert |log| <= maxRequests;
  }
}
