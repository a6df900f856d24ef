# Sample service: authentication, metrics and configuration in Dafny

This project models the core of a small Flask sample service and proves properties of the
model. The core has these parts:

- **Request admission.** The `require_auth` decorator takes an API key from `X-API-Key`, then a
  Bearer token from `Authorization`, then checks for any one of the required roles. The
  `rate_limit` decorator keeps a sliding-window log of request instants per client.
- **API keys.** An in-memory registry is consulted first. The `api_keys` database table is the
  fallback, and it refuses inactive and expired keys.
- **Tokens.** A simplified JSON Web Token has three base64url segments with the padding
  stripped. Only the payload and the clock decide whether it verifies.
- **Older module.** A single-file authentication module predates the package. Its key lookup
  has no database, and its rate table is shared by the application's routes.
- **Metrics store.** It keeps request counters by path and status, a bounded duration log,
  bounded trace spans and per-operation performance statistics. It also builds the Prometheus
  text exposition and answers the trace query.
- **Echo "LLM" service.** It has request hooks, a tracing wrapper, the echo reply with its
  token count, and the `/metrics` and `/traces` pages.
- **Configuration.** Settings are read from the environment with typed parsing and defaults.
  A validator collects every error and logs production warnings. A summary leaves the
  secrets out.

State that the source updates in place is a class with `modifies` clauses:
`ApiKeys.ApiKeyRegistry`, `Decorators.RateLimiter`, `Metrics.MetricsStore`,
`LlmApp.LlmService` and `AppConfig.Config`. Loops are methods with invariants:

- the timestamp pruning;
- the histogram bucket loops;
- the exposition line loops;
- the `/metrics` loop.

The pure code is functions and lemmas.

Python dictionaries keep insertion order, and the text outputs depend on that order, so a
dictionary is a list of key/value pairs (`Dict`). Python list slicing, `str.split()`,
`str.lower()`/`str.upper()` and `int()` are written out in `Seqs` and `Text`.

Some things the service reads are inputs to the model:

- **Clocks.** Every clock reading is a parameter. Instants are integers; the rate limiter's
  `time.time()` and durations are `real`.
- **Random values.** Identifiers drawn from `secrets` and `uuid` are parameters.
- **Environment.** The process environment is a map.
- **Database.** The `api_keys` table is an optional map, `None` when no connection pool is set.
- **Codecs and HMAC.** Base64url, JSON, HMAC-SHA256 and the ISO-8601 parser are the fields of
  `Jwt.Primitives`. The round trip needs one assumption about them: decoding inverts
  encoding. That assumption is the predicate `Jwt.Sound`, and each lemma that uses it takes it
  as a precondition.
- **Floats.** Python's `str` of a float is the parameter `showFloat`.

The token format follows the compact serialization of section 3.1 of RFC 7519. The padding
rule follows Appendix C of RFC 7515 and section 5 of RFC 4648. The exposition follows the
Prometheus text format 0.0.4.

## Model

| member | source | states |
|---|---|---|
| Credentials.RolesOrDefault | auth_pkg/api_keys.py:130 | `roles or ['user']` is never empty and keeps a non-empty role list unchanged |
| Seqs.KeepLast | metrics.py:77-78 | trimming a log to `n` entries keeps exactly the `n` newest, oldest first |
| Seqs.PyTail | metrics.py:225-226 | `xs[-k:]` keeps the last `k` entries for positive `k` and drops the first `-k` for negative `k` |
| Seqs.Reverse | metrics.py:228 | `reversed` gives the same entries in the opposite order |
| Dict.KeysAt | metrics.py:174 | the key list of a dictionary lists its entries' keys in order |
| Dict.GetFound | metrics.py:65 | a lookup succeeds exactly for a present key and returns the value stored with it |
| Dict.GetPut | metrics.py:65 | after `d[k] = v`, `k` reads `v` and every other key reads as before |
| Dict.PutKeys | metrics.py:174-175 | an update keeps an existing key in place and appends a new key at the end |
| Dict.PutEntries | metrics.py:127 | an update adds no entry other than the written one |
| Dict.PutKeepsKeysDistinct | metrics.py:127 | an update never duplicates a key |
| Text.SplitOn | auth_pkg/jwt.py:54 | `str.split(sep)` always yields at least one part |
| Text.SplitWithoutSeparator | auth_pkg/jwt.py:54-56 | a string without the separator splits into itself alone |
| Text.SplitAtFirstSeparator | auth_pkg/jwt.py:54 | splitting cuts at the first separator and continues on the rest |
| Text.SplitJoin | auth_pkg/jwt.py:44 | joining separator-free parts with the separator and splitting again gives the parts back |
| Text.StripTrailing | auth_pkg/jwt.py:32-33 | `rstrip(c)` yields a prefix that does not end in `c` |
| Text.Repeat | auth_pkg/jwt.py:62 | `c * n` has `n` characters, all `c` |
| Text.StripTrailingRestores | auth_pkg/jwt.py:42 | a string is its stripped form followed by the stripped characters |
| Text.DropSpaces | llm_app.py:163 | dropping leading whitespace yields a suffix that starts with a non-space |
| Text.TakeWord | llm_app.py:163 | the first word is a prefix, and it is non-empty when the text starts with a non-space |
| Text.TakeWordOfWord | llm_app.py:163 | a word followed by a space is taken whole |
| Text.WordsAfterWord | llm_app.py:162-163 | `split()` of a word, a space and a rest is that word followed by the rest's words |
| Text.WordsAfterSpace | llm_app.py:163 | a leading space adds no word |
| Text.PrependWord | llm_app.py:163 | helper for `Text.Words`: a word put in front of words gives words |
| Text.Words | llm_app.py:163 | `split()` yields non-empty words without whitespace, at most one per character |
| Text.Lower | app/config.py:126 | lower-casing maps each character and keeps the length |
| Text.Upper | app/config.py:52 | upper-casing maps each character and keeps the length |
| Text.DigitChar | metrics.py:177 | a digit value is written as a decimal digit character |
| Text.NatToString | metrics.py:177 | a count is written as a non-empty string of decimal digits |
| Text.NatToStringValue | metrics.py:177 | the digits written for `n` have value `n` |
| Text.TrimUnpadded | app/config.py:107 | `int()` strips nothing from text that starts and ends with a non-space |
| Text.DigitCount | app/config.py:107 | the digits `int()` counts against its 4300-digit limit are at most the characters |
| Text.DigitCountOfDigits | app/config.py:107 | in text made of digits, every character counts against the limit |
| Text.NatTextIsDigits | app/config.py:107 | a written count is digit groups, which `int()` converts exactly when it has at most 4300 digits |
| Text.ParseUnsigned | app/config.py:107 | `int()` of digit groups is their value, or `ValueError` past 4300 digits |
| Text.ParseNegative | app/config.py:107 | `int()` of `-` and digit groups is minus their value, or `ValueError` past 4300 digits |
| Text.ParseInt | app/config.py:106-110 | `int()` accepts exactly surrounding whitespace around an optional sign and digit groups of at most 4300 digits; a `-` gives a value not above zero, otherwise not below |
| Text.ParseIntToString | app/config.py:107 | `int(str(i)) == i` for every integer of at most 4300 digits; the text of a longer one is refused |
| Jwt.Repad | auth_pkg/jwt.py:58-62 | padding makes the length a multiple of four by appending fewer than four `=` to the segment |
| Jwt.VerifyToken | auth_pkg/jwt.py:48-80 | a token with other than three parts, a payload segment that does not decode and decoded bytes that do not parse are each refused; a result is always marked authenticated |
| Jwt.StrippedSegmentChars | auth_pkg/jwt.py:32-33 | an issued segment contains neither `.` nor `=` |
| Jwt.RepadRestoresPadding | auth_pkg/jwt.py:58-62 | re-padding a stripped encoder output restores it exactly |
| Jwt.CreateToken | auth_pkg/jwt.py:17-45 | with sound codecs an issued token has three parts free of `.` and `=`, the middle one being the stripped encoding of the payload issued at `now` |
| Jwt.JoinedSegments | auth_pkg/jwt.py:44 | three stripped segments joined by `.` split back into exactly those segments |
| Jwt.VerifyCreatedToken | auth_pkg/jwt.py:17-80 | an issued token verifies to its user and roles up to and including its expiry, and to `None` after it |
| Jwt.OnlyPayloadAndClockMatter | auth_pkg/jwt.py:54-65 | header and signature are never examined: tokens with the same payload part verify alike |
| Jwt.RefusedIffExpired | auth_pkg/jwt.py:64-77 | a token whose payload decodes and parses is accepted exactly when it carries an `exp` the clock is not past, and then yields the claimed user and the claimed roles or `["user"]` |
| ApiKeys.ActiveRow | auth_pkg/api_keys.py:78 | a database lookup returns only the table's own row, and only when it is active |
| ApiKeys.ValidateApiKey | auth_pkg/api_keys.py:142-176 | a missing or empty key is refused; a key held in memory yields its entry's user and roles; any other accepted key yields its table row's `user_name` and `roles` |
| ApiKeys.ValidateApiKeyAsWritten | auth_pkg/api_keys.py:161-163 | the call raises exactly for a non-empty key absent from memory whose active row has an expiry |
| ApiKeys.ApiKeyRegistry.constructor | auth_pkg/api_keys.py:16 | the registry starts empty |
| ApiKeys.ApiKeyRegistry.Register | auth_pkg/api_keys.py:123-139 | the fresh key is stored with its user, roles defaulted to `['user']`, and creation instant |
| ApiKeys.RegisterThenValidate | auth_pkg/api_keys.py:123-154 | a registered key validates to its user and roles, and every other key validates as before |
| ApiKeys.MemoryTakesPrecedence | auth_pkg/api_keys.py:147-154 | a key held in memory is accepted whatever the database holds |
| ApiKeys.DatabaseFallback | auth_pkg/api_keys.py:156-176 | outside memory, a key is accepted iff the pool is set and its row is active and not past its expiry, and then yields the row's user and roles |
| ApiKeys.ExpiringDatabaseKeyRaises | auth_pkg/api_keys.py:161-165 | as written, every active database key with an expiry raises, in any table, where the intended check accepts or refuses it by instant |
| ApiKeys.AsWrittenAgreesWithoutExpiry | auth_pkg/api_keys.py:142-176 | whenever the code as written returns, it returns what the intended check returns |
| Decorators.Admit | auth_pkg/decorators.py:20-84 | the "API key or JWT token required" 401 can never be produced, and an unguarded view runs anonymously |
| Decorators.MissingKeyRejectedBeforeJwt | auth_pkg/decorators.py:35-42 | a required but invalid API key gives 401 before the token verifier is consulted |
| Decorators.ValidKeySkipsJwt | auth_pkg/decorators.py:45 | a valid API key skips the JWT step: neither header nor verifier affects the decision |
| Decorators.BearerTokenExtraction | auth_pkg/decorators.py:46-59 | without the `Bearer ` prefix the answer is 401; with it, the verifier sees only the text after the seventh character |
| Decorators.ForbiddenIffNoRequiredRole | auth_pkg/decorators.py:69-75 | 403 exactly when roles are required, a caller was authenticated, and it holds none of them |
| Decorators.RoleCheckNeedsCaller | auth_pkg/decorators.py:62-80 | without an authenticated caller the role check is skipped and the view runs anonymously, which happens only when nothing is required |
| Decorators.AdminRouteWithIssuedTokens | auth_pkg/decorators.py:69-75 | on the admin route, an unexpired issued `user` token gets 403 and an `admin` token is admitted with its user and roles |
| Decorators.Recent | auth_pkg/decorators.py:108-111 | pruning keeps exactly the timestamps newer than the window start |
| Decorators.RecentConcat | auth_pkg/decorators.py:108-111 | pruning keeps the kept timestamps in their order: pruning two stretches of a log and concatenating gives the pruned whole |
| Decorators.RateLimiter.constructor | auth_pkg/decorators.py:17 | the rate table starts empty |
| Decorators.RateLimiter.Hit | auth_pkg/decorators.py:98-127 | one pass through the wrapper gives the outcome and the table of `RateStep` |
| Decorators.Prune | auth_pkg/decorators.py:108-111 | the comprehension's loop computes `Recent` |
| Decorators.RateStep | auth_pkg/decorators.py:104-125 | 429 exactly when the pruned log is full; refused requests are not recorded, accepted ones append `now`, other clients are untouched |
| Decorators.RateStepKeepsBound | auth_pkg/decorators.py:114-125 | under a fixed limit no client's log grows beyond the limit |
| LegacyAuth.ValidateApiKey | auth.py:42-54 | the older lookup accepts exactly the non-empty keys held in memory, with their user and roles |
| LegacyAuth.AgreesWithPackageWithoutPool | auth.py:42-54 | the older lookup is the package's lookup with no connection pool |
| LegacyAuth.LegacyTokenIssueRaises | auth.py:56-84 | the older issuer raises for every secret, validity, user, role list and instant |
| LegacyAuth.PackageIssuerTokenVerifies | auth_pkg/jwt.py:17-80 | for the same inputs and a validity that is not negative, the package's issuer gives a token that verifies at issue |
| LegacyAuth.RecentAppend | auth.py:212-215 | pruning a log with a fresh instant appended keeps that instant |
| LegacyAuth.RootRequestCountsAgainstProtected | auth.py:189-229 | a request accepted on `/` counts against the same client's `/protected` limit for the next 60 seconds |
| Metrics.CountRequest | metrics.py:65 | counting a request adds one to its own (path, status) counter and changes no other |
| Metrics.CountRequestKeepsDistinct | metrics.py:65 | counting a request never makes a path or a status appear twice |
| Metrics.NewSpan | metrics.py:83-102 | a span is a root span, records the user only when truthy, and defaults the user agent to `unknown` |
| Metrics.SpansOfTrace | metrics.py:223 | the filter keeps exactly the spans of the requested trace |
| Metrics.SpansOfTraceConcat | metrics.py:223 | the filter keeps the store's order: filtering two stretches and concatenating gives the filtered whole |
| Metrics.GetTraces | metrics.py:218-228 | the query returns the selected spans newest first, as many as `limit` allows |
| Metrics.GetTracesOfTrace | metrics.py:222-228 | given a trace id, only stored spans of that trace are returned |
| Metrics.RecordStats | metrics.py:127-136 | a recorded operation adds one call, one error on failure, the duration to the total, sets the last execution, and makes min and max the least and greatest of the old value and the duration |
| Metrics.TotalsAfterPut | metrics.py:259-260 | replacing one operation's statistics changes the totals by the difference |
| Metrics.PutKeepsConsistent | metrics.py:127-136 | consistent statistics stay consistent after an update |
| Metrics.RowSums | metrics.py:239-260 | the summary totals are the sums over the per-operation rows |
| Metrics.ApmStats | metrics.py:231-264 | one row per operation in order carrying its count, errors, total, max, last execution and min (0 before any call), totals matching the rows, and the ten newest slow and failed records |
| Metrics.BucketOf | metrics.py:188-192 | a duration lands in the first bucket whose bound covers it |
| Metrics.BucketsPartition | metrics.py:188-192 | the buckets are not cumulative: the six counts add up to the number of durations |
| Metrics.TotalOfSix | metrics.py:185-191 | helper for `Metrics.BucketCounts`: the total of six counts is their sum |
| Metrics.BucketCounts | metrics.py:185-192 | the bucket loops count each bucket's durations and the counts total the durations |
| Metrics.StatusLines | metrics.py:175-178 | one counter line per status recorded for the path |
| Metrics.RequestLines | metrics.py:174-178 | one counter line per (path, status) counter |
| Metrics.StatusLineListed | metrics.py:175-178 | every status counted under a path has its line |
| Metrics.CounterLineListed | metrics.py:174-178 | every counter of the table is exposed |
| Metrics.ExpositionLines | metrics.py:169-215 | the exposition lists the counters, then six buckets with average and count when durations exist, and ends with the two error counters |
| Metrics.StatusLinesOf | metrics.py:175-178 | the inner loop emits `StatusLines` |
| Metrics.CounterLines | metrics.py:174-178 | the outer loop emits `RequestLines` |
| Metrics.HistogramSection | metrics.py:181-203 | the histogram part emits `HistogramLines` |
| Metrics.DurationValues | metrics.py:182 | the durations are read in log order |
| Metrics.MetricsStore.constructor | metrics.py:14-37 | every counter, log and table starts empty |
| Metrics.MetricsStore.RecordHttpRequest | metrics.py:54-78 | counts the request, appends its duration keeping the newest hundred, and changes nothing else |
| Metrics.MetricsStore.CreateTraceSpan | metrics.py:81-110 | appends the new span, keeping the newest hundred, and changes nothing else |
| Metrics.MetricsStore.RecordApmOperation | metrics.py:113-156 | updates the operation's statistics, raises the totals by one call and one error on failure, and logs failures and slow calls, each log keeping its newest fifty |
| Metrics.MetricsStore.IncrementDatabaseErrors | metrics.py:159-161 | the database error counter goes up by one |
| Metrics.MetricsStore.IncrementRedisErrors | metrics.py:164-166 | the Redis error counter goes up by one |
| Metrics.MetricsStore.PrometheusMetrics | metrics.py:169-215 | the text is the exposition lines joined by newlines and ends with a newline |
| LlmApp.ReplyTokens | llm_app.py:162-163 | the echo reply counts one token more than the message's words |
| LlmApp.TracesPage | llm_app.py:206-213 | the page holds the fifty newest traces, oldest first, and the total count |
| LlmApp.RequestsLines | llm_app.py:190-191 | one requests line per path, in first-request order |
| LlmApp.MetricsLines | llm_app.py:187-204 | requests lines first, the average only with durations, then the tokens and errors counters |
| LlmApp.AverageLineIsAverage | llm_app.py:196 | helper for `LlmApp.AverageOnlyWithDurations`: the average line starts with the average metric name |
| LlmApp.RequestsLineIsNotAverage | llm_app.py:191 | helper: a requests line is not an average line |
| LlmApp.CounterLinesAreNotAverage | llm_app.py:199-202 | helper: the tokens and errors lines are not average lines |
| LlmApp.AverageOnlyWithDurations | llm_app.py:194-196 | the average line appears exactly when durations were recorded |
| LlmApp.LlmService.constructor | llm_app.py:32-40 | every counter and log starts empty |
| LlmApp.LlmService.BeforeRequest | llm_app.py:108-112 | the path's request count goes up by one and no other count changes |
| LlmApp.LlmService.AfterRequest | llm_app.py:114-130 | the duration is appended, the newest hundred kept, and the new entry is last |
| LlmApp.LlmService.FinishSpan | llm_app.py:55-106 | one trace is appended, as success or error; a failure is counted and raised again |
| LlmApp.LlmService.Chat | llm_app.py:146-179 | a non-object body gives 500, an empty message 400, otherwise the echo and its token count, and tokens are added only for a reply |
| LlmApp.LlmService.ChatCompletion | llm_app.py:146-179 | the wrapped handler always records one successful trace and never counts an error |
| LlmApp.LlmService.MetricsText | llm_app.py:181-204 | the loop produces the `/metrics` lines joined by newlines with a final newline |
| AppConfig.GetEnv | app/config.py:78-90 | a set variable gives its value, an unset one the default |
| AppConfig.GetEnvInt | app/config.py:92-110 | the parsed integer, or the default when unset or not an integer |
| AppConfig.GetEnvBool | app/config.py:112-126 | the default only when unset; otherwise whether the lower-cased value is a true word |
| AppConfig.GetEnvIntReadsBack | app/config.py:103-110 | an integer written in decimal is read back exactly, whatever the default, when it has at most 4300 digits; a longer one gives the default |
| AppConfig.OverlongIntegerGivesDefault | app/config.py:103-110 | a value of more than 4300 decimal digits makes `int()` raise, and the default is used |
| AppConfig.GetEnvBoolAnyCase | app/config.py:123-126 | a set variable decides the flag whatever the default, and the flag is true exactly when the value spells `true`, `1`, `yes` or `on` with letters in any case |
| AppConfig.CheckNumberExact | app/config.py:137-175 | each check reports exactly its own broken rule |
| AppConfig.ErrorsOfFirstExact | app/config.py:135-175 | the first `k` checks report exactly the broken rules among them, in check order |
| AppConfig.ValidationErrors | app/config.py:135-175 | the errors list holds exactly the broken rules, each once, in check order |
| AppConfig.SomeErrorIffUnacceptable | app/config.py:135-175 | some rule is broken exactly when the settings are not acceptable |
| AppConfig.ValidationFailsIffUnacceptable | app/config.py:186-190 | validation raises exactly when the settings are not acceptable |
| AppConfig.ProductionWarnings | app/config.py:177-184 | the warnings are exactly those whose production condition holds, each once |
| AppConfig.WarningsNeverFail | app/config.py:177-190 | the debug flag and the JWT secret never decide whether validation fails |
| AppConfig.AcceptedDatabaseIsConfigured | app/config.py:152-159 | after validation, any one database setting means all four are set |
| AppConfig.EmptyDatabaseSettingsAreUnset | app/config.py:152-159 | absent or empty database settings pass validation and leave the database unconfigured |
| AppConfig.SummaryOf | app/config.py:202-221 | the summary reports whether the database is configured and hides falsy host and name |
| AppConfig.SummaryHidesSecrets | app/config.py:202-221 | the database user, password and JWT secret never appear in the summary |
| AppConfig.DefaultsAcceptable | app/config.py:16-41 | the class defaults pass validation with no database configured |
| AppConfig.Loaded | app/config.py:43-71 | the log level is upper-cased and an unset database host becomes `None` |
| AppConfig.LoadEmptyEnvironment | app/config.py:43-71 | with nothing set, load keeps every attribute except the upper-cased log level and the database and secret settings, which become `None` |
| AppConfig.LowerCaseLogLevelAccepted | app/config.py:52 | a lower-case `LOG_LEVEL` is read as the valid upper-case level |
| AppConfig.CollectErrors | app/config.py:135-175 | the checks run in order and build `ValidationErrors` |
| AppConfig.CollectWarnings | app/config.py:177-184 | the production checks build `ProductionWarnings` |
| AppConfig.Config.constructor | app/config.py:16-41 | the attributes start at the class defaults |
| AppConfig.Config.Validate | app/config.py:128-190 | the errors and warnings of the current attributes |
| AppConfig.Config.LoadApplication | app/config.py:46-52 | the application attributes are read from the environment |
| AppConfig.Config.LoadDatabase | app/config.py:54-59 | the database attributes are read, unset ones becoming `None` |
| AppConfig.Config.LoadServices | app/config.py:61-71 | the Redis, JWT and security attributes are read |
| AppConfig.Config.ReadEnvironment | app/config.py:43-71 | the attributes become `Loaded` of the old attributes and the environment |
| AppConfig.Config.Load | app/config.py:43-76 | load reads every attribute, then validates, and raises exactly when the settings read are not acceptable |
| AppConfig.Config.DatabaseConfigured | app/config.py:192-200 | true exactly when all four database settings are truthy |
| AppConfig.Config.GetSummary | app/config.py:202-221 | the summary of the current attributes |

## Left out

- The database itself is not modelled: SQL, connections, `store_api_key_in_db` and `update_api_key_last_used`. The table is a value passed in, and writes to it are not modelled.
- Base64url, JSON, HMAC-SHA256, the ISO-8601 parser, `secrets.token_urlsafe` and `uuid` are parameters. Signatures are computed but never checked by the source, so no property of them is stated.
- Jwt.CreateToken: the `OverflowError` of `now + timedelta(hours=JWT_EXPIRATION_HOURS)` (auth_pkg/jwt.py:22) is not modelled. Instants are unbounded integers, so neither `datetime`'s year 1 to 9999 range nor `timedelta`'s limit of 999999999 days applies, and a validity that puts the expiry past year 9999 (for example 100000000 hours) still yields a token where the source raises. `Jwt.NewPayload` and `Jwt.VerifyCreatedToken` inherit this: the round trip is stated for every validity, including ones the source cannot issue.
- Jwt.VerifyToken: an `exp` that is not a timestamp, or that carries a time zone (comparing an aware and a naive `datetime` raises), is the `parseClaims` primitive returning `None`. A `roles` value that is JSON but not a list of strings is not modelled.
- The older `verify_jwt_token` reads `exp` with `fromisoformat` alone. That difference lives in the `parseClaims` parameter, and no separate member models it.
- The older `require_auth` and `rate_limit` have the package's bodies. They are modelled once, by `Decorators.Admit` and `Decorators.RateStep`.
- Python `float` is modelled as `real`: rounding, `inf` arithmetic and float formatting are not modelled. Formatting is the `showFloat` parameter, and `inf` appears only as the `Bound` of an unseen operation.
- Metrics.ApmStats: the averages, the error rate and the rounding to two decimals of `get_apm_stats` are left out, because they are float arithmetic.
- `record_http_request`'s `user` argument is unused by the source and not modelled.
- The ISO timestamps written by `datetime.utcnow().isoformat()` are integers given by the caller.
- Text.Lower, Text.Upper: case mapping is ASCII only.
- Text.ParseInt: only ASCII digits are accepted, not the other Unicode decimal digits `int()` also reads. Surrounding whitespace is Python's full whitespace set. The 4300-digit limit is CPython's default; a changed `sys.set_int_max_str_digits` is not modelled.
- Text.NatToString, Text.IntToString: `str()` of an integer of more than 4300 digits raises `ValueError` in CPython; the model writes it out. The exposition's counters and statuses never come near that size.
- LlmApp.LlmService.Chat: a `message` that is present but not a string is not modelled.
- Flask glue is not modelled: request objects, `jsonify`, `g`, response headers and HTTP status plumbing beyond the decisions themselves.
- Logging is not modelled.
- Concurrency is not modelled: the module-level dictionaries are unsynchronised in the source, and the model runs one request at a time.
- AppConfig.Config.Load: the `ValueError` raised by `_validate` is a non-empty `errors` result rather than an exception.
- AppConfig.Config.Load: the seventeen assignments are grouped into three methods, one per section, in source order.
- Redis caching and the other routes of the application are not part of this model.

## Findings

| source | as written | input that shows it | evidently intended | confidence | as-written member | corrected member |
|---|---|---|---|---|---|---|
| auth_pkg/api_keys.py:161-163 | calls `.replace('Z', '+00:00')` on `expires_at`, which the `TIMESTAMP` column of migration.py:30 delivers as a `datetime`, so the call raises `TypeError` | an active database key, not in memory, whose `expires_at` is set | compare the current instant with the expiry and refuse the key only after it | not executed | ApiKeys.ValidateApiKeyAsWritten (ApiKeys.ExpiringDatabaseKeyRaises) | ApiKeys.ValidateApiKey (ApiKeys.DatabaseFallback) |
| auth.py:60-72 | puts `datetime` objects in the payload, which `json.dumps` cannot encode, so `create_jwt_token` raises `TypeError` | any user and roles | write `exp` and `iat` as ISO strings, as auth_pkg/jwt.py:26-27 does and as auth.py:109 expects | not executed | LegacyAuth.CreateTokenAsWritten (LegacyAuth.LegacyTokenIssueRaises) | Jwt.CreateToken (Jwt.VerifyCreatedToken, LegacyAuth.PackageIssuerTokenVerifies) |
