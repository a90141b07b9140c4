# phish-stats-api: the account and session core, in Dafny

This project models the account and session workflow of the phish-stats-api
Go service and proves properties of the model. That workflow is registration,
login, token issue and validation, the user store behind them, and the HTTP
envelope around them. The model follows the Go code branch for branch; where
the code panics, the model says so.

Modules, one per source file or shared concept:

- `Common`: `Option`, `Result` (a Go `(value, error)` return) and `Outcome` (returned or panicked).
- `Strconv`: `strconv.Itoa` and `strconv.Atoi` on 64-bit integers.
- `Models`: the records of `internal/models`.
- `Envelope`: `errorLogs` and the one-entry error message every failure path builds.
- `Auth`: `internal/services/auth/service.go`. bcrypt and JWT signing (HS256, section 3.2 of RFC 7518) are function-valued inputs. Two axioms stand in for them: the hasher axiom `Sound` and the signer axiom `RoundTrips`. They are used only as lemma preconditions.
- `MongoDb`: `internal/services/mongodb/service.go`. The `users` collection is a sequence field of the class `MongoService`. Its methods change it in place, and each returns the driver calls it made. The driver's own failures and the `_id` an upsert receives are an input `Driver`.
- `Psql`: `internal/services/psql/service.go`. The `*sql.DB` handle is an optional input that answers queries and statements.
- `PhishNet`: the phish.net payload mapper.
- `Facade`: `internal/facade/facade.go`. The class `Service` holds the store, the phish.net client, the struct validator and the auth service. Each operation returns the calls it made, in order, so which steps ran and which were skipped is part of its contract.
- `Routes`: the registration and login handlers, `setUserResponse`, and the token middleware of `internal/routes`.

Time is whole seconds, and each request reads the clock once. The input
`Facade.Env` carries:

- the clock reading,
- bcrypt's random salt,
- `primitive.NewObjectIDFromTimestamp`,
- the driver's behaviour.

The host name and the elapsed-time text are plain string inputs.

Where the code behaves otherwise than a registration and login service would be expected to, the model follows the code:

- `RegisterUser` issues both tokens before the store checks anything (uniqueness, then hash, then insert). The tokens are therefore issued for requests that then fail on a clash.
- When the final write fails, no user and no tokens are returned (`Facade.Service.RegisterUser`).
- A successful registration leaves its message status empty, so the status handed to `writeHeader` is `Atoi("")`, which is 0 (`Routes.SuccessStatuses`).
- Login failures for an unknown user and for a wrong password can be told apart: the code gives different root causes ("Find user error" against "Verification error") and different texts ("login or passowrd is incorrect; err: mongo: no documents in result" against "login or password is incorrect") (`Facade.Service.LoginUser`).
- No failure reaches the client as an envelope: `setUserResponse` dereferences the response's user, and every error path of the facade and of the request reading leaves that user nil. Every error response therefore panics in the deferred writer (`Routes.SetUserResponse`, `Routes.RegistrationHandler`).
- The token expiry check is inverted (it rejects exactly the tokens with `now < exp`) and then dereferences a nil error. The middleware never calls the handler it wraps, and it reports status 0 on every branch. See Findings.

The user record is declared twice, at internal/models/models.go:8-19 and
internal/models/model.go:7-18. The model uses one `User` datatype: the
models.go fields plus the `Shows` list. That is the record the facade and
the store exchange, and the facade stores it where response.go declares a
`*UserParsedResponse`. Optional `*string` fields are plain strings, with "" for absent.
The claims' `Uid` and the projection's `ID` are the hexadecimal form of the
object id (`Models.Hex`, proved injective).

## Model

| member | source | states |
|---|---|---|
| `Strconv.Itoa` | internal/facade/facade.go:54-55 | the text is non-empty; it starts with a digit exactly for non-negative numbers and with '-' exactly for negative ones |
| `Strconv.Atoi` | internal/routes/handler.go:185 | the result stays within 64 bits; text that is not an optional sign followed by digits reads as 0 unless its leading digits already pass 2^64-1, which clamps to the maximum, or to the minimum under '-'; signed and unsigned digits read as their value, clamped to 64 bits |
| `Strconv.OverflowBeforeSyntaxError` | internal/routes/handler.go:185 | digits worth more than 2^64-1 followed by a non-digit read as the maximum, and as the minimum under '-', not as 0 |
| `Strconv.AtoiItoa` | internal/routes/handler.go:185 | Atoi undoes Itoa on every 64-bit integer |
| `Models.HexInjective` | internal/facade/facade.go:62-63 | distinct object ids have distinct hex user ids |
| `Envelope.Entries` | internal/routes/handler.go:222-232 | one entry per error, in order, each with the given root cause, Itoa(status) and that error's text |
| `Envelope.ErrorLogs` | internal/facade/facade.go:149-159 | the append loop builds exactly those entries |
| `Envelope.Failure` | internal/facade/facade.go:54-55 | a single-error message is the one entry for that error, the same status as text on the message, and no host name, elapsed time or count |
| `Auth.HashPassword` | internal/services/auth/service.go:33-40 | bcrypt at cost 14 returns its digest; a bcrypt error panics |
| `Auth.VerifyPassword` | internal/services/auth/service.go:43-54 | (true, "") exactly when the second argument is a digest of the first; otherwise (false, "login or password is incorrect") |
| `Auth.HashThenVerify` | internal/services/auth/service.go:33-54 | under the hasher axiom, a password verifies against whatever digest HashPassword made of it |
| `Auth.AccessClaims` | internal/services/auth/service.go:57-66 | access claims carry the user's email, full name and hex id, and expire 24 hours from now |
| `Auth.RefreshClaims` | internal/services/auth/service.go:68-74 | refresh claims carry no identity and expire 168 hours from now |
| `Auth.RefreshOutlivesAccess` | internal/services/auth/service.go:63-71 | the refresh expiry is strictly later than the access expiry, which is later than now |
| `Auth.GenerateAllTokens` | internal/services/auth/service.go:56-89 | returns exactly when both HS256 signatures with the one key succeed, and the tokens are those signatures; any signing error panics |
| `Auth.ValidateToken` | internal/services/auth/service.go:91-116 | a parse error is returned unchanged; claims are returned only when they are SignedDetails and exp is not after now; every other path panics |
| `Auth.FreshAccessTokenPanics` | internal/services/auth/service.go:110-112 | an access token checked before its 24 hours are up makes ValidateToken panic |
| `Auth.ExpiredAccessTokenAccepted` | internal/services/auth/service.go:110-115 | the same token is accepted once it has expired, if the parse does not fail on its `exp` |
| `Auth.ValidateTokenCorrected` | internal/services/auth/service.go:100-115 | never panics; accepts exactly the SignedDetails tokens with now < exp and returns their claims; a parse error is passed through |
| `Auth.AccessTokenRoundTrip` | internal/services/auth/service.go:56-115 | with the corrected check, an access token yields its issuing claims, subject included, for exactly 24 hours, and "token is expired" after that |
| `Auth.RefreshTokenRoundTrip` | internal/services/auth/service.go:68-115 | with the corrected check, a refresh token validates for exactly 168 hours and names no subject |
| `MongoDb.Matching` | internal/services/mongodb/service.go:130-145 | a query result holds only stored records the filter selects; a nil value selects the records lacking the field |
| `MongoDb.MatchingExactly` | internal/services/mongodb/service.go:130-145 | a record is in the result exactly when it is stored and selected |
| `MongoDb.MatchingAppend` | internal/services/mongodb/service.go:141-145 | filtering distributes over concatenation, so results keep store order |
| `MongoDb.MatchingCount` | internal/services/mongodb/service.go:130-145 | each selected record appears as often as it is stored, and no other record appears |
| `MongoDb.NoPhoneMatches` | internal/services/mongodb/service.go:154 | a phone filter with a string value selects no stored record |
| `MongoDb.NullPhoneMatchesAll` | internal/services/mongodb/service.go:154 | a phone filter with a nil value selects every stored record, in store order |
| `MongoDb.FirstIndex` | internal/services/mongodb/service.go:116 | the index of a matching record with no match before it, or none when nothing matches |
| `MongoDb.Upserted` | internal/services/mongodb/service.go:45-63 | the first record with the userId gets the entries set and all others stay; without one, exactly one new record is appended |
| `MongoDb.TokenUpdate` | internal/services/mongodb/service.go:198-204 | three entries, keyed token, refreshToken, updatedAt, in that order |
| `MongoDb.TokenUpdateSets` | internal/services/mongodb/service.go:198-206 | applying that update sets exactly the two tokens and updatedAt of a record |
| `MongoDb.TokenUpsertStores` | internal/services/mongodb/service.go:196-213 | after the token upsert, a lookup by userId finds a record carrying the new tokens and time |
| `MongoDb.TokenUpsertIdempotent` | internal/services/mongodb/service.go:196-213 | writing the same tokens twice leaves the collection as writing them once |
| `MongoDb.MongoService.UpdateTokensById` | internal/services/mongodb/service.go:45-64 | one upserting UpdateOne; a driver error leaves the collection alone, success makes it Upserted |
| `MongoDb.MongoService.AddNewUser` | internal/services/mongodb/service.go:66-108 | email check, then username check, then hash, then insert, each step only after the previous passed; a clash names the email or username; the collection grows by exactly the hashed record, which is returned, exactly when everything succeeds, and is unchanged otherwise |
| `MongoDb.MongoService.FindUserByUsername` | internal/services/mongodb/service.go:110-122 | the first record with the username, or "login or passowrd is incorrect; err: " followed by the driver error or "mongo: no documents in result" |
| `MongoDb.MongoService.FindAll` | internal/services/mongodb/service.go:130-145 | a Find error or a decode error is returned as is; otherwise exactly the selected records |
| `MongoDb.MongoService.AllUsersByEmail` | internal/services/mongodb/service.go:124-146 | the driver's error as is; otherwise the filtered store, in store order with multiplicity: the records with that email, or without one for a nil value |
| `MongoDb.MongoService.AllUsersByPhone` | internal/services/mongodb/service.go:148-170 | the driver's error as is; otherwise no record for a string value and every record for a nil value, since the record has no phone field |
| `MongoDb.MongoService.AllUsersByUsername` | internal/services/mongodb/service.go:172-194 | the driver's error as is; otherwise the filtered store, in store order with multiplicity: the records with that username, or without one for a nil value |
| `MongoDb.MongoService.UpdateAllTokens` | internal/services/mongodb/service.go:196-213 | the update is token, refreshToken, updatedAt, upserted on the userId; the found record gets just those three fields, or a new record is added; a driver error changes nothing |
| `Psql.ValidateDbAction` | internal/services/psql/service.go:93-102 | a nil handle adds "no database connection" and an empty query "missing query/statement", in that order; the list is empty exactly when neither holds |
| `Psql.FindUser` | internal/services/psql/service.go:28-59 | a failed validation returns exactly validateDbAction's list without touching the database; ErrNoRows gives "username does not exist in the database"; another query error panics on the nil rows; a scan error panics with its text; otherwise the last row, or the empty record when there are no rows |
| `Psql.InsertNewUser` | internal/services/psql/service.go:61-82 | a failed validation returns exactly validateDbAction's list and runs nothing; an exec error gives no result and one wrapped error; otherwise the affected row count, with a RowsAffected error as the only entry |
| `Psql.InsertOne` | internal/services/psql/service.go:84-91 | a nil handle panics; otherwise the exec error, if any, is returned |
| `PhishNet.PhishNetResponseToShowResponse` | internal/services/phishnet/mapper.go:12-30 | empty payload gives the empty show; otherwise venue and date come from the first row, and there is one song per row, in order, with all four fields copied; the message stays empty |
| `Facade.Stamped` | internal/facade/facade.go:60-63 | both times are now, the id is minted from that time, the user id is its hex form, and no other field changes |
| `Facade.Setlist` | internal/facade/facade.go:133-138 | one song per row, in order, with only title and track time |
| `Facade.Service.RegisterUser` | internal/facade/facade.go:47-81 | validation failure: one "Validation error"/"400" entry and no further call. Otherwise both tokens are issued for the stamped request before the store is called. A store failure gives one "New user error"/"500" entry, no user and an unchanged store. A signing failure panics before the store is called; in the store step, it panics exactly when the store gets past both lookups and bcrypt fails. Success gives the stored record, hashed, with an empty message |
| `Facade.Service.LoginUser` | internal/facade/facade.go:83-117 | find, verify, issue, store, each only after the previous succeeded. The failures are "Find user error", "Verification error" (with the verifier's text) and "Token update error", all "500" and with no user. Success gives status "200" and the record as fetched, while the store gets the new tokens |
| `Facade.Service.GetShow` | internal/facade/facade.go:119-147 | a fetch error gives one "Get show error"/"500" entry; an empty payload panics; otherwise date and venue come from the first row and the songs follow the rows |
| `Facade.Service.GetShowCorrected` | internal/facade/facade.go:133-144 | never panics; an empty payload gives the empty show; otherwise the same as GetShow |
| `Routes.SetUserResponse` | internal/routes/handler.go:184-203 | panics exactly when the response has no user; copies only id, names, email, shows and tokens; never the digest or the times; keeps entries and status, adds the host name, drops count and elapsed time; the status is Atoi of the message status |
| `Routes.SuccessStatuses` | internal/routes/handler.go:185 | the status handed to writeHeader is 200 after a successful login and 0 after a successful registration |
| `Routes.ReadRequest` | internal/routes/handler.go:56-66 | an unreadable or undecodable body gives one "400" entry under the matching root cause and no request |
| `Routes.RegistrationHandler` | internal/routes/handler.go:45-70 | the facade is reached exactly when the body reads and decodes; otherwise one "400" entry, no store change, and a panicking write; the written value is the projection of the response |
| `Routes.LoginHandler` | internal/routes/handler.go:72-98 | the same pipeline around login |
| `Routes.Authenticate` | internal/routes/middleware.go:23-38 | an empty header gives one "Authentication error"/"500" entry without asking the validator; otherwise it panics exactly when ValidateToken does, a validation error gives one "Validation error"/"403" entry and no identity, and valid claims give their name, email and uid with an empty message |
| `Routes.SetMiddlewareResponse` | internal/routes/middleware.go:43-48 | only the host name changes; the status is Atoi of the message status |
| `Routes.Middleware` | internal/routes/middleware.go:13-39 | an empty header gives one "Authentication error"/"500" entry without validation; a validation error gives one "Validation error"/"403" entry and no identity; a valid token copies the claims' identity; the status is always 0 and the next handler never runs |
| `Routes.FreshTokenRejected` | internal/routes/middleware.go:30 | as written, a fresh access token never gets through the middleware |
| `Routes.MiddlewareCorrected` | internal/routes/middleware.go:23-38 | forwards exactly the requests whose token passes the corrected check, with the claims' identity; a rejection carries one entry whose status is the header status: a missing header gives "Authentication error"/500, and a token the check rejects gives "Validation error"/403 with the check's error text |
| `Routes.FreshTokenForwarded` | internal/routes/middleware.go:23-38 | with the corrections, an access token is forwarded with its holder's name, email and id for exactly 24 hours, and is rejected with 403 after that |

## Left out

- HTTP plumbing: `InitializeRoutes`, `writeHeader`, `readBody`, JSON encoding and decoding, gzip and CORS (cmd/svr/main.go), `os.Hostname` and `time.Since`. A body read, a decoder, a host name and an elapsed-time text are inputs instead.
- `GetShowHandler`, `AddUserShowHandler`, `GetUserData` and `HealthCheck`: they lie outside the registration and login path. Two of them call facade operations (`GetUser`, `AddUserShow`) that internal/facade/facade.go does not define.
- The phish.net HTTP client (internal/services/phishnet/service.go) is an input function from a date to a decoded payload or an error.
- SQL text and execution: internal/services/psql/mapper.go builds statements from templates that are not part of this model. Queries, statements and row scans are answers of the input handle.
- Start-up wiring: `NewService`, `InitializeMongoService` and `InitializePsqlService` read configuration.
- bcrypt and JWT internals: these are uninterpreted functions. golang-jwt/jwt/v4's own `exp` validation (the `RegisteredClaims.Valid()` check that `ParseWithClaims` runs by default) inside `ParseWithClaims` is not modelled: the signer axiom lets a signed token parse to its claims at any time. If the library rejects expired tokens itself, then `Auth.ExpiredAccessTokenAccepted` no longer applies. `Auth.FreshAccessTokenPanics` still does, and no token is ever accepted.
- Nil `*string` fields of the request (`*user.Email`, `*userRequest.Password` and the like) are not modelled. An absent string is "", so a stored field holding a pointer to "" is not told apart from an absent one. The `AllUsersBy*` filter values are the exception: there a nil value is `None`.
- `writeHeader`'s `w.WriteHeader(code)`: net/http panics on a status outside 100-999, so the 0 written after a successful registration and by the middleware panics there. HTTP plumbing is outside this model; the contracts stop at the status handed to `writeHeader`.
- `Facade.Service.RegisterUser`'s validation branch: `models.User` carries no `validate` struct tags, so `validator.Struct` (internal/facade/facade.go:51) returns nil for every request and that branch cannot fire as written. The model keeps the validator as an input, which covers both outcomes.
- Time: `time.Now`, the RFC3339 round trip and `time.Local` are replaced by one whole-second reading per request.
- MongoDB driver details: cursor batching (`RemainingBatchLength() > 0` is taken to mean "some record matches"), cursor `Close` and logging.
- Request contexts, cancellation and concurrent requests: requests are modelled one at a time.
- `MongoDb.Upserted`: a stored record without a userId is modelled with userId "" (`UserId` is a plain string tagged `omitempty`, internal/models/models.go:18). So a token upsert for userId "" updates the first such record, where MongoDB's `{userId: ""}` matches no document lacking the field and inserts a new one. The facade always stamps a userId before storing (internal/facade/facade.go:63), so only records written by other means are affected.
- `Facade.Service.RegisterUser`: on a store failure, the entry's trace is the store's error text, but this contract does not say which of the store's errors it is. `MongoDb.MongoService.AddNewUser` states that.
- `Routes.RegistrationHandler`: the response after the facade call is the facade's answer. This contract does not restate it; `Facade.Service.RegisterUser` states it.
- `Routes.LoginHandler`: likewise, `Facade.Service.LoginUser` states the answer.
- `Psql.FindUser`: after a successful loop, `rows.Err()` and `rows.Close()` are not modelled; the source checks neither.

## Findings

| source | as written | input that shows it | evidently intended | confidence | as-written member | corrected member |
|---|---|---|---|---|---|---|
| internal/services/auth/service.go:110-112 | Rejects a token whose exp is after now, which is every unexpired token. It then calls `err.Error()` on a nil error, which panics | An access token from GenerateAllTokens, validated within its 24 hours (`Auth.FreshAccessTokenPanics`); the same token after expiry is accepted (`Auth.ExpiredAccessTokenAccepted`), provided the JWT library's own `exp` check does not already reject it at the parse (see Left out) | Accept only while now < exp; reject with an error value, never a panic (section 4.1.4 of RFC 7519) | not executed | `Auth.ValidateToken` | `Auth.ValidateTokenCorrected` |
| internal/routes/middleware.go:13-39 | The wrapped handler is an unnamed parameter and is never invoked. No branch sets the message status, so the header status is always 0 | Any request carrying a token that validates (`Routes.Middleware`: the next handler never runs and the status is 0) | Pass validated requests on with the caller's identity; reject the rest with the entry's status (500 or 403) (`Routes.FreshTokenForwarded`) | not executed | `Routes.Middleware` | `Routes.MiddlewareCorrected` |
| internal/facade/facade.go:141-142 | `showData.Data[0]` is read without checking the length | A date for which phish.net returns no rows: the index is out of range and the call panics | The guard phishnet/mapper.go:15 has: an empty payload gives the empty show | not executed | `Facade.Service.GetShow` | `Facade.Service.GetShowCorrected` |
