/** The older single-file authentication module. Its `require_auth` has the same body as the
    package's and is modelled by `Decorators.Admit`; its `verify_jwt_token` differs from the
    package's only in how `exp` is read, which is the `parseClaims` primitive of
    `Jwt.VerifyToken`; its `register_api_key` is `ApiKeys.ApiKeyRegistry.Register` on a
    registry of its own. What differs is the key lookup, which has no database, the token
    issuer, which puts `datetime` objects in the payload, and the rate table, which the
    application's routes share. */
module LegacyAuth {
  import opened Wrappers
  import opened Credentials
  import ApiKeys
  import Decorators
  import Jwt

  /** `validate_api_key(api_key)` of the older module: the in-memory dictionary only. */
  function ValidateApiKey(keys: map<string, ApiKeys.KeyRecord>, apiKey: Option<string>): (r: Option<AuthInfo>)
    ensures r.Some? <==> apiKey.Some? && apiKey.value != [] && apiKey.value in keys
    ensures r.Some? ==> r == Some(AuthInfo(Some(keys[apiKey.value].user), keys[apiKey.value].roles, true))
  {
    if apiKey.None? || apiKey.value == [] then None
    else if apiKey.value in keys then
      var data := keys[apiKey.value];
      Some(AuthInfo(Some(data.user), data.roles, true))
    else None
  }

  /** The older lookup is the package's lookup with no connection pool. */
  lemma AgreesWithPackageWithoutPool(keys: map<string, ApiKeys.KeyRecord>, apiKey: Option<string>, now: int)
    ensures ValidateApiKey(keys, apiKey) == ApiKeys.ValidateApiKey(keys, None, apiKey, now)
  {
  }

  /** A value of the older token payload: `json.dumps` encodes strings and lists of strings
      but has no encoding for a `datetime`. */
  datatype PayloadValue = Text(text: string) | TextList(items: seq<string>) | DateTime(instant: int)

  predicate Serializable(v: PayloadValue) {
    !v.DateTime?
  }

  /** The payload dictionary the older `create_jwt_token` builds: its `exp` and `iat` are the
      `datetime` objects themselves, not their ISO strings. */
  function LegacyPayload(user: string, roles: Option<seq<string>>, now: int, hours: int): seq<(string, PayloadValue)> {
    [("user", Text(user)), ("roles", TextList(RolesOrDefault(roles))),
     ("exp", DateTime(now + hours * Jwt.MicrosPerHour)), ("iat", DateTime(now))]
  }

  /** `create_jwt_token(user, roles)` of the older module: `json.dumps(payload)` raises
      `TypeError` at a value it cannot encode; past that point the steps are the package's. */
  function CreateTokenAsWritten(p: Jwt.Primitives, secret: string, hours: int, user: string,
                                roles: Option<seq<string>>, now: int): ApiKeys.Outcome<string>
  {
    var payload := LegacyPayload(user, roles, now, hours);
    if forall i :: 0 <= i < |payload| ==> Serializable(payload[i].1)
    then ApiKeys.Returned(Jwt.CreateToken(p, secret, hours, user, roles, now))
    else ApiKeys.Raised
  }

  /** The older issuer raises for every secret, validity, user, role list and instant,
      whatever the codecs. */
  lemma LegacyTokenIssueRaises(p: Jwt.Primitives, secret: string, hours: int, user: string,
                               roles: Option<seq<string>>, now: int)
    ensures CreateTokenAsWritten(p, secret, hours, user, roles, now) == ApiKeys.Raised
  {
    assert !Serializable(LegacyPayload(user, roles, now, hours)[2].1);
  }

  /** The package's issuer, which writes the instants as ISO strings, gives for the same
      inputs a token that verifies at the moment it is issued, whenever the validity is not
      negative. */
  lemma PackageIssuerTokenVerifies(p: Jwt.Primitives, secret: string, hours: int, user: string,
                                   roles: Option<seq<string>>, now: int)
    requires Jwt.Sound(p) && hours >= 0
    ensures Jwt.VerifyToken(p, Jwt.CreateToken(p, secret, hours, user, roles, now), now) ==
      Some(AuthInfo(Some(user), RolesOrDefault(roles), true))
  {
    Jwt.VerifyCreatedToken(p, secret, hours, user, roles, now, now);
  }

  lemma {:induction false} RecentAppend(log: seq<real>, t: real, windowStart: real)
    requires t > windowStart
    ensures Decorators.Recent(log + [t], windowStart) == Decorators.Recent(log, windowStart) + [t]
  {
    assert (log + [t])[..|log|] == log;
  }

  /** The application decorates `/` with `rate_limit(100, 60)` and `/protected` with
      `rate_limit(30, 60)`, both from this module and so both on its one table keyed only by
      the client address. A request accepted on `/` at `t1` is counted by every `/protected`
      check of the same client during the next 60 seconds, on top of whatever that check
      would have counted without it. */
  lemma {:induction false} RootRequestCountsAgainstProtected(table: Decorators.RateTable, client: string,
                                                            t1: real, t2: real)
    requires Decorators.RateStep(table, client, t1, 100, 60).0 == Decorators.Allowed
    requires t2 - 60.0 < t1
    ensures var log := if client in table then table[client] else [];
      var kept := Decorators.Recent(log, t1 - 60.0);
      var after := Decorators.RateStep(table, client, t1, 100, 60).1;
      |Decorators.Recent(after[client], t2 - 60.0)| == |Decorators.Recent(kept, t2 - 60.0)| + 1
  {
    var log := if client in table then table[client] else [];
    var kept := Decorators.Recent(log, t1 - 60.0);
    RecentAppend(kept, t1, t2 - 60.0);
  }
}
