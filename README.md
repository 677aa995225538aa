# Access tokens and access logging in the DolphinScheduler API layer

This project models two pieces of the DolphinScheduler API server in Dafny and proves properties about them.

- **The access-token service** (`AccessTokenServiceImpl`) lists, issues, generates, revokes and rotates bearer tokens. Each token belongs to one user.
  - Every write is gated by the permission rule "caller is an administrator, or caller is the owner".
  - The admin-only listing is gated by the not-admin check.
  - Revoking and rotating are also gated by a not-found check.
  - The token table is a class `TokenStore.AccessTokenMapper` holding a `map<int, AccessToken>` and an auto-increment id.
  - The service is a class `AccessTokens.AccessTokenService` whose methods state, for each outcome code, exactly what the table looks like afterwards.
- **The access-log interceptor** (`AccessLogAspect.doAround`) wraps an annotated handler.
  - It picks one trace id per call and logs a request record holding the login label, the route, the handler name and a redacted argument summary.
  - It runs the handler exactly once and logs a response record with the same trace id.
  - It returns the handler's result unchanged; a throw propagates.
  - The log is a `Logger` object whose `records` sequence grows. The handler is a `JoinPoint` object that counts how often it was run.
  - What one call logs is specified by the function `AccessRecords`.

Modules: `Common` (shared types), `TokenStore` (the mapper), `AccessTokens` (the service), `AccessLog` (the interceptor).

Some rules come from code that is not part of this model. They are modelled as assumptions:
- The service's base class: `HasPerm(u, owner)` is `u.userType == AdminUser || u.id == owner`.
- The service's base class: `IsNotAdmin(u)` is `u.userType != AdminUser`, and its rejection reports `UserNoOperationPerm`.
- The mapper's page query: an owner filter of 0 means "every owner", and any other filter keeps the records whose `user_id` equals it.
- The mapper's by-user query keeps exactly the records whose `user_id` equals the argument.
- `StringUtils.isEmpty` holds of a null string and of a string of length 0, and of nothing else.

Behaviour the model follows as the code has it:
- In `createToken` the permission check comes before the `userId <= 0` check. A caller without permission gets `UserNoOperationPerm`, never the exception.
- The exception is modelled as the outcome `IllegalArgument`, which leaves the table unchanged.
- `updateToken` checks permission against the new owner before it looks the record up. `delAccessTokenById` looks the record up first and checks permission against the stored owner.
- Only `createToken` looks at the rows-affected count. Delete and update ignore what the mapper reports.
- `updateToken` does not reject a non-positive user id, so an administrator can move a token to user 0 or below. The store's invariant therefore does not claim positive owners.
- The trace-id header is read only on the request-logging path, with a request context present.
- The list query's owner filter 0 means "every owner". A non-administrator whose id is 0 therefore sees every token. `QueryAccessTokenList` states this case separately.

## Model

| member | source | states |
|---|---|---|
| `TokenStore.OwnedBy` | dolphinscheduler-api/src/main/java/org/apache/dolphinscheduler/api/service/impl/AccessTokenServiceImpl.java:100 | holds exactly the stored records whose owner is the given user, unchanged |
| `TokenStore.AccessTokenMapper.Insert` | dolphinscheduler-api/src/main/java/org/apache/dolphinscheduler/api/service/impl/AccessTokenServiceImpl.java:135 | reports 1 row and stores the record under a fresh id, or reports 0 rows and leaves the table as it was; keeps the store invariant |
| `TokenStore.AccessTokenMapper.SelectById` | dolphinscheduler-api/src/main/java/org/apache/dolphinscheduler/api/service/impl/AccessTokenServiceImpl.java:178 | returns the record stored under the id, or none exactly when the id is absent |
| `TokenStore.AccessTokenMapper.DeleteById` | dolphinscheduler-api/src/main/java/org/apache/dolphinscheduler/api/service/impl/AccessTokenServiceImpl.java:190 | removes exactly the given id and nothing else |
| `TokenStore.AccessTokenMapper.UpdateById` | dolphinscheduler-api/src/main/java/org/apache/dolphinscheduler/api/service/impl/AccessTokenServiceImpl.java:222 | replaces the record stored under the entity's id, if present; no other record changes |
| `TokenStore.AccessTokenMapper.SelectAccessTokenPage` | dolphinscheduler-api/src/main/java/org/apache/dolphinscheduler/api/service/impl/AccessTokenServiceImpl.java:74 | owner filter 0 yields every record; any other filter yields exactly that owner's records |
| `TokenStore.AccessTokenMapper.QueryAccessTokenByUser` | dolphinscheduler-api/src/main/java/org/apache/dolphinscheduler/api/service/impl/AccessTokenServiceImpl.java:100 | yields exactly the records of the given owner |
| `AccessTokens.HasPerm` | dolphinscheduler-api/src/main/java/org/apache/dolphinscheduler/api/service/impl/AccessTokenServiceImpl.java:119 | the permission gate of create, generate, delete and update (also called at lines 157, 185 and 207); an assumption about the unseen base class: an administrator may act for every owner, any other user only for their own id |
| `AccessTokens.IsNotAdmin` | dolphinscheduler-api/src/main/java/org/apache/dolphinscheduler/api/service/impl/AccessTokenServiceImpl.java:95 | the admin-only gate of the by-user listing; an assumption about the unseen base class: it rejects exactly the ordinary users |
| `AccessTokens.ListFilter` | dolphinscheduler-api/src/main/java/org/apache/dolphinscheduler/api/service/impl/AccessTokenServiceImpl.java:70-74 | the owner filter the list query passes to the page query: 0 for an administrator, the caller's own id otherwise; `QueryAccessTokenList` is proved to return exactly what that filter selects |
| `AccessTokens.AccessTokenService.QueryAccessTokenList` | dolphinscheduler-api/src/main/java/org/apache/dolphinscheduler/api/service/impl/AccessTokenServiceImpl.java:66-80 | always `Success`, with no store change; the records are exactly those the owner filter `ListFilter` selects: an administrator gets every token, a non-administrator only their own (all of them when their id is 0); the total is the number of records |
| `AccessTokens.AccessTokenService.QueryAccessTokenByUser` | dolphinscheduler-api/src/main/java/org/apache/dolphinscheduler/api/service/impl/AccessTokenServiceImpl.java:90-104 | a non-administrator gets `UserNoOperationPerm` and no data; an administrator gets `Success` and exactly the records of the given user; no store change |
| `AccessTokens.AccessTokenService.CreateToken` | dolphinscheduler-api/src/main/java/org/apache/dolphinscheduler/api/service/impl/AccessTokenServiceImpl.java:116-145 | `UserNoOperationPerm` exactly when permission fails; the exception exactly when permission holds and the user id is at most 0; otherwise `Success` or `CreateAccessTokenError`; success stores one new record under a fresh id with the given owner, parsed expiry, token value and create and update time `now`, and returns it; every other outcome leaves the table as it was |
| `AccessTokens.AccessTokenService.GenerateToken` | dolphinscheduler-api/src/main/java/org/apache/dolphinscheduler/api/service/impl/AccessTokenServiceImpl.java:155-165 | without permission `UserNoOperationPerm` and no token; with permission `Success` and the digest of the decimal user id, the expiry string and the decimal timestamp, concatenated; never touches the table |
| `AccessTokens.AccessTokenService.DelAccessTokenById` | dolphinscheduler-api/src/main/java/org/apache/dolphinscheduler/api/service/impl/AccessTokenServiceImpl.java:175-193 | `AccessTokenNotExist` exactly when the id is absent; `UserNoOperationPerm` exactly when it is present and the caller lacks permission over the stored owner; `Success` otherwise, removing exactly that id; no other outcome changes the table |
| `AccessTokens.AccessTokenService.UpdateToken` | dolphinscheduler-api/src/main/java/org/apache/dolphinscheduler/api/service/impl/AccessTokenServiceImpl.java:205-226 | `UserNoOperationPerm` exactly when the caller lacks permission over the new owner, whether or not the id exists; then `AccessTokenNotExist` exactly when the id is absent; on `Success` the record keeps its id and create time and takes the new owner, expiry, value and update time, and no other record changes; no other outcome changes the table |
| `AccessTokens.DecimalString` | dolphinscheduler-api/src/main/java/org/apache/dolphinscheduler/api/service/impl/AccessTokenServiceImpl.java:161 | Java's rendering of an `int` or `long` in a string concatenation: non-empty, digits, with a minus sign first for a negative number |
| `AccessTokens.Digits` | dolphinscheduler-api/src/main/java/org/apache/dolphinscheduler/api/service/impl/AccessTokenServiceImpl.java:161 | the rendering of a non-negative number is all digits with no leading zero |
| `AccessTokens.DigitsRoundTrip` | dolphinscheduler-api/src/main/java/org/apache/dolphinscheduler/api/service/impl/AccessTokenServiceImpl.java:161 | reading the rendered digits back gives the number: the rendering loses nothing |
| `AccessTokens.DigestInput` | dolphinscheduler-api/src/main/java/org/apache/dolphinscheduler/api/service/impl/AccessTokenServiceImpl.java:161 | the digested string is the three renderings laid end to end, its length the sum of theirs |
| `AccessTokens.DigestInputAmbiguous` | dolphinscheduler-api/src/main/java/org/apache/dolphinscheduler/api/service/impl/AccessTokenServiceImpl.java:161 | with no separator, two different (user, expiry) pairs can give one digest input at the same instant: user 1 with "23" and user 12 with "3" at time 5 |
| `AccessTokens.DigestInputInjective` | dolphinscheduler-api/src/main/java/org/apache/dolphinscheduler/api/service/impl/AccessTokenServiceImpl.java:161 | for a fixed user and instant, different expiry strings give different digest inputs |
| `AccessLog.TraceId` | dolphinscheduler-api/src/main/java/org/apache/dolphinscheduler/api/aspect/AccessLogAspect.java:65-75 | the header value exactly when request logging is on, a request context exists and the header is present and non-empty; the generated id in every other case |
| `AccessLog.ParseLoginInfo` | dolphinscheduler-api/src/main/java/org/apache/dolphinscheduler/api/aspect/AccessLogAspect.java:122-129 | `"NOT LOGIN"` when no session user is attached, otherwise that user's name |
| `AccessLog.RedactedArgsKeys` | dolphinscheduler-api/src/main/java/org/apache/dolphinscheduler/api/aspect/AccessLogAspect.java:108-115 | the redacted map's keys are exactly the parameter names not in the ignore set |
| `AccessLog.RedactedArgsValues` | dolphinscheduler-api/src/main/java/org/apache/dolphinscheduler/api/aspect/AccessLogAspect.java:111-115 | each kept name maps to the argument at the same position (its last position if the name repeats) |
| `AccessLog.ParseArgs` | dolphinscheduler-api/src/main/java/org/apache/dolphinscheduler/api/aspect/AccessLogAspect.java:102-120 | an empty ignore list or no parameter names gives the full ordered argument list; otherwise a map whose keys are exactly the names not ignored, each bound to its argument |
| `AccessLog.AccessRecordsShape` | dolphinscheduler-api/src/main/java/org/apache/dolphinscheduler/api/aspect/AccessLogAspect.java:65-97 | one call logs a request record exactly when request logging is on and a request context exists, then a response record exactly when response logging is on and the handler returned; every record carries the call's trace id; the response carries the returned value and the elapsed time |
| `AccessLog.ResponseSharesTraceId` | dolphinscheduler-api/src/main/java/org/apache/dolphinscheduler/api/aspect/AccessLogAspect.java:81-96 | when both records are logged, the response record's trace id equals the request record's |
| `AccessLog.Logger.Info` | dolphinscheduler-api/src/main/java/org/apache/dolphinscheduler/api/aspect/AccessLogAspect.java:81-96 | appends exactly one record to the log |
| `AccessLog.JoinPoint.Proceed` | dolphinscheduler-api/src/main/java/org/apache/dolphinscheduler/api/aspect/AccessLogAspect.java:92 | runs the handler once (the count goes up by one) and yields its outcome |
| `AccessLog.DoAround` | dolphinscheduler-api/src/main/java/org/apache/dolphinscheduler/api/aspect/AccessLogAspect.java:57-100 | the handler runs exactly once; its outcome, value or throw, is returned unchanged; the log grows by exactly the records `AccessRecords` gives for this call |

## Left out

- The Spring and AspectJ wiring is not modelled: the pointcut, the annotation lookup, `RequestContextHolder` and reflective parameter names. These become inputs: a config value, an optional request, and the join point's signature and arguments.
- The log is a sequence of structured records. The message templates, `Arrays.toString`, `HashMap.toString` and the rendering of the response body are not modelled.
- There is no clock or randomness in the model. `UUID.randomUUID`, `System.currentTimeMillis` and `new Date()` become parameters.
- `CreateToken`: the create and update time both take one `now`. The source calls `new Date()` twice, and the two values can differ by a millisecond.
- `DateUtils.stringToDate` and `EncryptionUtils.getMd5` are not modelled. They are function-valued fields of the service, fixed when the service is built. A failed parse is the absent date.
- `AccessTokenMapper.Insert`: whether the database accepts a row is a nondeterministic choice. The service's contract covers both outcomes.
- `AccessTokenMapper.SelectAccessTokenPage` and `AccessTokens.AccessTokenService.QueryAccessTokenList`: the search-value match and the page window are not modelled. They keep only the owner-filter rule and return every matching record. `PageInfo`, `Result` and the result maps are replaced by a status plus data.
- `AccessTokenMapper.SelectAccessTokenPage` and `AccessTokenMapper.QueryAccessTokenByUser` return the matching records as a map from id to record. The order of the Java list is not modelled.
- `AccessTokens.AccessTokenService.QueryAccessTokenByUser`: the model cannot see that a non-administrator's call skips the store query. Queries here never change the store.
- `AccessTokenMapper.UpdateById` replaces the whole record. The mapper's default of skipping null columns, such as an unparsable expiry, is not modelled.
- The base class's `putMsg` message texts are not modelled, nor is the initial `STATUS = false` entry of the list-by-user result, nor the `logger.error` lines on a missing token.
- Java `int` ids and `long` timestamps are unbounded integers. The elapsed time does not overflow for real clock values.
- `AccessTokens.AccessTokenService.QueryAccessTokenList`: the total is the unbounded record count. The source narrows the `long` total to `int`, which wraps above 2^31 - 1 records.
- Header lookup is by exact name; servlet containers match header names without regard to case.
- Concurrent update and delete of the same id are not modelled.
