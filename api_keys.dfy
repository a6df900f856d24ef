/** The API-key registry of the authentication package: an in-memory dictionary from key to
    owner and roles, consulted first, and the `api_keys` database table as a fallback that
    refuses inactive and expired keys.

    The database is a value: `None` when no connection pool is set, otherwise the table as a
    map from key to row. Instants are integers counting microseconds. */
module ApiKeys {
  import opened Wrappers
  import opened Credentials

  /** One entry of the in-memory `API_KEYS` dictionary. */
  datatype KeyRecord = KeyRecord(user: string, roles: seq<string>, createdAt: int)

  /** A row of the `api_keys` table: `user_name`, `roles`, `is_active`, `expires_at`. */
  datatype KeyRow = KeyRow(user: string, roles: seq<string>, isActive: bool, expiresAt: Option<int>)

  type Database = Option<map<string, KeyRow>>

  /** A call that either returns a value or raises. */
  datatype Outcome<T> = Returned(value: T) | Raised

  /** `get_api_key_from_db(api_key)`: the row, unless there is no pool, no row, or the row
      is not active. */
  function ActiveRow(db: Database, apiKey: string): (r: Option<KeyRow>)
    ensures r.Some? ==> db.Some? && apiKey in db.value && r.value == db.value[apiKey]
    ensures r.Some? ==> r.value.isActive
  {
    if db.Some? && apiKey in db.value && db.value[apiKey].isActive then Some(db.value[apiKey])
    else None
  }

  /** `validate_api_key(api_key)` at instant `now`, with the expiry check done as intended:
      a database key is refused when the clock is strictly past its `expires_at`. An accepted
      key yields the owner and roles of its in-memory entry, or else those of its table row. */
  function ValidateApiKey(keys: map<string, KeyRecord>, db: Database, apiKey: Option<string>,
                          now: int): (r: Option<AuthInfo>)
    ensures apiKey.None? || apiKey.value == [] ==> r.None?
    ensures r.Some? ==> r.value.authenticated && r.value.user.Some?
    ensures apiKey.Some? && apiKey.value != [] && apiKey.value in keys ==>
      r == Some(AuthInfo(Some(keys[apiKey.value].user), keys[apiKey.value].roles, true))
    ensures apiKey.Some? && apiKey.value !in keys && r.Some? ==>
      db.Some? && apiKey.value in db.value &&
      r.value == AuthInfo(Some(db.value[apiKey.value].user), db.value[apiKey.value].roles, true)
  {
    if apiKey.None? || apiKey.value == [] then None
    else if apiKey.value in keys then
      var data := keys[apiKey.value];
      Some(AuthInfo(Some(data.user), data.roles, true))
    else
      match ActiveRow(db, apiKey.value)
      case None => None
      case Some(row) =>
        if row.expiresAt.Some? && now > row.expiresAt.value then None
        else Some(AuthInfo(Some(row.user), row.roles, true))
  }

  /** `validate_api_key` as written: the `expires_at` value of a `TIMESTAMP` column arrives as
      a `datetime`, and `datetime.replace('Z', '+00:00')` raises `TypeError`, so any database
      key that has an expiry makes the call raise instead of comparing instants. */
  function ValidateApiKeyAsWritten(keys: map<string, KeyRecord>, db: Database,
                                   apiKey: Option<string>, now: int): (r: Outcome<Option<AuthInfo>>)
    ensures r.Raised? <==>
      (apiKey.Some? && apiKey.value != [] && apiKey.value !in keys &&
       ActiveRow(db, apiKey.value).Some? && ActiveRow(db, apiKey.value).value.expiresAt.Some?)
  {
    if apiKey.None? || apiKey.value == [] then Returned(None)
    else if apiKey.value in keys then
      var data := keys[apiKey.value];
      Returned(Some(AuthInfo(Some(data.user), data.roles, true)))
    else
      match ActiveRow(db, apiKey.value)
      case None => Returned(None)
      case Some(row) =>
        if row.expiresAt.Some? then Raised
        else Returned(Some(AuthInfo(Some(row.user), row.roles, true)))
  }

  /** The in-memory `API_KEYS` dictionary and `register_api_key`. */
  class ApiKeyRegistry {
    var keys: map<string, KeyRecord>

    constructor ()
      ensures keys == map[]
    {
      keys := map[];
    }

    /** `register_api_key(user, roles)`. `apiKey` is the fresh `secrets.token_urlsafe(32)`
        and `createdAt` the current instant. */
    method Register(user: string, roles: Option<seq<string>>, apiKey: string, createdAt: int)
      returns (issued: string)
      modifies this
      ensures issued == apiKey
      ensures keys == old(keys)[apiKey := KeyRecord(user, RolesOrDefault(roles), createdAt)]
    {
      keys := keys[apiKey := KeyRecord(user, RolesOrDefault(roles), createdAt)];
      issued := apiKey;
    }
  }

  // ---------------------------------------------------------------------------------------
  // Properties
  // ---------------------------------------------------------------------------------------

  /** After registration the new key validates to its owner and to the given roles, or to
      `['user']` when none were given; every other key validates exactly as before. */
  lemma RegisterThenValidate(keys: map<string, KeyRecord>, db: Database, user: string,
                             roles: Option<seq<string>>, apiKey: string, createdAt: int,
                             other: Option<string>, now: int)
    requires apiKey != []
    ensures var keys' := keys[apiKey := KeyRecord(user, RolesOrDefault(roles), createdAt)];
      ValidateApiKey(keys', db, Some(apiKey), now) == Some(AuthInfo(Some(user), RolesOrDefault(roles), true)) &&
      (other != Some(apiKey) ==> ValidateApiKey(keys', db, other, now) == ValidateApiKey(keys, db, other, now))
  {
  }

  /** An in-memory entry wins: the database is not consulted for a key held in memory. */
  lemma MemoryTakesPrecedence(keys: map<string, KeyRecord>, db1: Database, db2: Database,
                              apiKey: string, now: int)
    requires apiKey != [] && apiKey in keys
    ensures ValidateApiKey(keys, db1, Some(apiKey), now) == ValidateApiKey(keys, db2, Some(apiKey), now)
    ensures ValidateApiKey(keys, db1, Some(apiKey), now).Some?
  {
  }

  /** Outside memory, a key is accepted exactly when the pool is set, the table has an active
      row for it, and that row has no expiry or an expiry not before `now`; it then yields the
      row's `user_name` and `roles`. */
  lemma DatabaseFallback(keys: map<string, KeyRecord>, db: Database, apiKey: string, now: int)
    requires apiKey != [] && apiKey !in keys
    ensures ValidateApiKey(keys, db, Some(apiKey), now).Some? <==>
      db.Some? && apiKey in db.value && db.value[apiKey].isActive &&
      (db.value[apiKey].expiresAt.None? || now <= db.value[apiKey].expiresAt.value)
    ensures ValidateApiKey(keys, db, Some(apiKey), now).Some? ==>
      ValidateApiKey(keys, db, Some(apiKey), now).value ==
        AuthInfo(Some(db.value[apiKey].user), db.value[apiKey].roles, true)
  {
  }

  /** The code as written raises for every database key that has an expiry, where the
      intended check accepts it before the expiry and refuses it after. */
  lemma ExpiringDatabaseKeyRaises(keys: map<string, KeyRecord>, db: Database, apiKey: string,
                                  row: KeyRow, now: int)
    requires apiKey != [] && apiKey !in keys
    requires ActiveRow(db, apiKey) == Some(row) && row.expiresAt.Some?
    ensures ValidateApiKeyAsWritten(keys, db, Some(apiKey), now) == Raised
    ensures ValidateApiKey(keys, db, Some(apiKey), now) ==
      if now > row.expiresAt.value then None else Some(AuthInfo(Some(row.user), row.roles, true))
  {
  }

  /** Where no expiry is involved, the code as written and the intended check agree. */
  lemma AsWrittenAgreesWithoutExpiry(keys: map<string, KeyRecord>, db: Database,
                                     apiKey: Option<string>, now: int)
    requires ValidateApiKeyAsWritten(keys, db, apiKey, now).Returned?
    ensures ValidateApiKeyAsWritten(keys, db, apiKey, now).value == ValidateApiKey(keys, db, apiKey, now)
  {
  }
}
