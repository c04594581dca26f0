# Session lifecycle of the shield authentication service, in Dafny

This project models the core of an authentication service written in Go on MongoDB:

- the session lifecycle of `authenticationService`: `PasswordLogin`, `Authenticate`, `RefreshLogin` and `Logout`;
- the session repository it runs against, with insert, touch (`updatedAt`), find and delete;
- the user repository, which keeps emails unique at insert;
- the user service, which hashes passwords and forces the `Tenant` role.

The model is a small state machine over one database value `Db`. That value holds the `sessions` and `users` collections as maps keyed by `_id`, plus an `online` flag. For every repository and service call there is a step function from the old database to the new database and the call's result. Each Go type whose methods update state becomes a class, and each of its methods is proved equal to its step function:

- `Database` holds the two maps;
- `AuthenticationRepository`, `UserRepository`, `AuthenticationService` and `UserService` each hold a reference to the shared `Database`;
- `UserRecord` stands for the `*models.User` the user service overwrites in place.

The properties are proved in two places. Single-call properties are `ensures` clauses of the step functions. Properties that span several calls are lemmas in `Lifecycle`, and some of those are proved by induction over any sequence of calls.

Foreign code is passed in as values:

- The JWT library becomes a `Codec` of four functions. Signing and verifying take the clock value, and signing may fail. A verifier answers `Verified(claims)` or `Rejected(recovered, fault)`, where `recovered` holds the claims an expired but well-signed token still yields. `SoundCodec` states the round trip that lemmas assume: a token verifies to its claims during its lifetime, and is rejected as expired after it, with its claims still recovered.
- The bcrypt helpers become a `Hasher`. `SoundHasher` states the assumptions: a password matches its own hash, a hash is never the password itself, and nothing matches the empty hash.
- `time.Now` is a `now` parameter, and `primitive.NewObjectID` is a `freshId` parameter.

Driver errors other than "no documents" are modelled by `online == false`, meaning every round trip fails. The repositories swallow those errors in the way the code does:

- find, update and delete return the zero document with no error and change nothing;
- inserts return the error;
- the user insert, whose email lookup then yields the zero user, refuses with "record exists".

Find-and-update and find-and-delete return the document as it was before the call, which is the driver's default.

## Behaviour of the code worth knowing

- **Repository calls run outside the transactions.** Each service call opens a session and a transaction (core/authentication-core.go:39-49, core/user-core.go:42), but passes the plain request context `ctx` to the repositories rather than a session context. So each insert, update and delete takes effect at once, and the commit and abort calls undo nothing. As a result:
  - a login whose token signing fails after the insert at core/authentication-core.go:63 leaves its session row behind (`LoginStep`);
  - a refresh whose owner lookup or signing fails after the touch at core/authentication-core.go:157 keeps the new `updatedAt` (`RefreshStep`).
- **Session delete uses the `users` collection.** The session repository's insert, update and find use the `"sessions"` collection (repository/authentication-repository.go:35, 50, 61). Its `DeleteOneById` finds and deletes in `"users"` (repository/authentication-repository.go:73). As a result:
  - no call ever removes a session (`RunKeepsSessions`);
  - logging out with a fresh token fails with "no documents", and the token still authenticates afterwards (`LogoutDoesNotRevoke`);
  - an expired refresh token deletes the user whose id equals the session id, if such a user exists, and otherwise fails with "no documents" (`ExpiredRefreshKeepsSession`).
- **Unknown email at login.** Only the wrong-password branch returns "invalid credentials" (core/authentication-core.go:93-95). An email with no user returns the repository's "no documents" error unchanged (core/authentication-core.go:50-54).
- **Refresh tokens are not rotated.** `RefreshLogin` returns the caller's refresh token unchanged (core/authentication-core.go:180-183).
- **Swallowed store errors.** The repositories return an error only when it is "no documents". When the server is unreachable:
  - `Authenticate` accepts any correctly signed token (`OutageAuthenticates`);
  - `RefreshLogin` issues an access token built from the zero user and the zero session id (`OutageRefreshIssuesEmptyClaims`).

## Model

| member | source | states |
|---|---|---|
| `AuthenticationRepo.InsertSession` | repository/authentication-repository.go:33-42 | insert succeeds exactly when the server answers and the id is free; it returns the document's id and adds exactly that row; on failure (duplicate key or transport) nothing changes; keying is preserved |
| `AuthenticationRepo.TouchSession` | repository/authentication-repository.go:44-56 | sets only `updatedAt` of the matching row to the clock value and keeps its id, owner and creation time; every other row is unchanged; it returns the pre-update document; an absent id is "no documents" with no change; an unreachable server yields the zero session with no change |
| `AuthenticationRepo.LookupSession` | repository/authentication-repository.go:58-68 | the stored session for a present id, "no documents" for an absent one, and the zero session with no error when the server is unreachable |
| `AuthenticationRepo.DeleteById` | repository/authentication-repository.go:70-80 | never changes the sessions table; it fails with "no documents" exactly when the server answers and no user has that id; when the server answers and a user has that id, it removes that user; with the server unreachable it returns the zero session and changes nothing; consistency is preserved |
| `AuthenticationRepo.InsertThenLookup` | repository/authentication-repository.go:33-66 | a session found right after a successful insert is the one inserted |
| `AuthenticationRepo.AuthenticationRepository.constructor` | repository/authentication-repository.go:27-31 | the repository is bound to the given database |
| `AuthenticationRepo.AuthenticationRepository.InsertOne` | repository/authentication-repository.go:33-42 | new database and result equal `InsertSession` of the old database |
| `AuthenticationRepo.AuthenticationRepository.UpdateOne` | repository/authentication-repository.go:44-56 | new database and result equal `TouchSession` of the old database |
| `AuthenticationRepo.AuthenticationRepository.FindOneById` | repository/authentication-repository.go:58-68 | the result is `LookupSession` of the current database, and when the server answers a found session is the stored row |
| `AuthenticationRepo.AuthenticationRepository.DeleteOneById` | repository/authentication-repository.go:70-80 | new database and result equal `DeleteById` of the old database |
| `UserRepo.LookupEmail` | repository/user-repository.go:76-85 | when the server answers, it succeeds exactly when some stored user has the email, and returns a stored user with that email; otherwise it returns "no documents"; an unreachable server yields the zero user |
| `UserRepo.LookupEmailIsUnique` | repository/user-repository.go:76-85 | when emails are unique, the user found by email is the one stored under its id |
| `UserRepo.LookupUser` | repository/user-repository.go:63-74 | the stored user for a present id, "no documents" for an absent one, and the zero user when the server is unreachable |
| `UserRepo.InsertUser` | repository/user-repository.go:34-47 | refuses with "record exists" exactly when the email is taken or the server is unreachable, and then leaves the record untouched; otherwise it stamps the fresh id on the caller's record; it stores the user exactly when that id is free; emails stay pairwise distinct |
| `UserRepo.SetPassword` | repository/user-repository.go:49-61 | when the server answers, writes only the password of the user with the matching id and returns that user as it was before, and an absent id is "no documents" with no change; no other row changes; with the server unreachable it returns the zero user and changes nothing |
| `UserRepo.RemoveUser` | repository/user-repository.go:87-97 | when the server answers, removes the matching user and returns it, and an absent id is "no documents" with no change; with the server unreachable it returns the zero user and changes nothing |
| `UserRepo.InsertThenLookup` | repository/user-repository.go:34-85 | a user inserted successfully is then found both by its new id and by its email |
| `UserRepo.UserRepository.constructor` | repository/user-repository.go:28-32 | the repository is bound to the given database |
| `UserRepo.UserRepository.FindOneByEmail` | repository/user-repository.go:76-85 | the result is `LookupEmail` of the current database, and when the server answers a found user is stored under its own id with that email |
| `UserRepo.UserRepository.FindOneById` | repository/user-repository.go:63-74 | the result is `LookupUser` of the current database |
| `UserRepo.UserRepository.InsertOne` | repository/user-repository.go:34-47 | new database, caller's record and result equal `InsertUser`; the database stays consistent |
| `UserRepo.UserRepository.UpdateOne` | repository/user-repository.go:49-61 | new database and result equal `SetPassword` applied to the record's current value |
| `UserRepo.UserRepository.DeleteOneById` | repository/user-repository.go:87-97 | new database and result equal `RemoveUser` |
| `AuthenticationCore.LoginStep` | core/authentication-core.go:38-98 | no user with the email gives "no documents" with nothing stored; a wrong password gives "invalid credentials" with nothing stored; when the server answers, a matching password with a free session id inserts exactly that user's new session, and the call succeeds exactly when both tokens can be signed; if signing fails, the error is a signing failure and the session row stays; on success the access token is signed from that user's email, id and role and the new session id, and the refresh token from that id; with the server unreachable nothing is stored, and the call fails with "invalid credentials" or, when the password matches the zero user's empty hash, with the insert's transport error; users never change |
| `AuthenticationCore.AuthenticateStep` | core/authentication-core.go:100-126 | a rejected token gives the verifier's error; a success returns exactly the verified claims; with the server answering, a verified token succeeds exactly when its session exists, and otherwise gives "no documents" |
| `AuthenticationCore.RefreshStep` | core/authentication-core.go:128-189 | no session row is ever created or removed; a success returns the caller's refresh token, touches only the verified session's `updatedAt`, and signs the new access token from that session's id and owner; a verified token whose session is gone gives "no documents" with no change; when the session exists, its `updatedAt` is set to the clock value and stays set whatever follows: the call fails with "no documents" when its owner is gone, and otherwise succeeds exactly when the access token can be signed and fails only with a signing failure; a rejected token with a recovered id runs the users-collection delete and returns its error, or no output and no error, and only that path returns no output without an error; a rejected token with no recovered id returns the verifier's error; with the server unreachable nothing changes |
| `AuthenticationCore.LogoutStep` | core/authentication-core.go:191-215 | the sessions table never changes; a token with no recoverable claims is a success with no change; with claims and the server answering, the call fails with "no documents" exactly when no user has the session id, and otherwise that user is deleted; with the server unreachable it succeeds and changes nothing |
| `AuthenticationCore.AuthenticationService.constructor` | core/authentication-core.go:30-36 | both repositories share the service's database, and the codec and hasher are the ones given |
| `AuthenticationCore.AuthenticationService.PasswordLogin` | core/authentication-core.go:38-98 | new database and result equal `LoginStep`; consistency is kept |
| `AuthenticationCore.AuthenticationService.Authenticate` | core/authentication-core.go:100-126 | it changes nothing, and its result equals `AuthenticateStep` |
| `AuthenticationCore.AuthenticationService.RefreshLogin` | core/authentication-core.go:128-189 | new database and result equal `RefreshStep`; consistency is kept |
| `AuthenticationCore.AuthenticationService.Logout` | core/authentication-core.go:191-215 | new database and result equal `LogoutStep`; consistency is kept |
| `UserCore.CreateStep` | core/user-core.go:35-64 | a hashing failure gives its error with nothing stored and the record untouched; otherwise the caller's record holds the hash and the `Tenant` role whatever role was supplied; a success stores exactly that record under the fresh id; a taken email, or an unreachable server, is refused with "record exists" and nothing stored |
| `UserCore.UpdateStep` | core/user-core.go:113-141 | a hashing failure gives its error with nothing changed; otherwise the caller's record gets the hash, and only the stored password of that id changes, to the hash; it returns the user as it was before; an absent id is "no documents" with no change; with the server unreachable it returns the zero user and changes nothing |
| `UserCore.UserService.constructor` | core/user-core.go:28-33 | the service and its repository share one database |
| `UserCore.UserService.CreateUser` | core/user-core.go:35-64 | new database, caller's record and result equal `CreateStep` |
| `UserCore.UserService.UpdateUser` | core/user-core.go:113-141 | new database, caller's record and result equal `UpdateStep` |
| `UserCore.UserService.DeleteUser` | core/user-core.go:143-164 | new database and result equal `RemoveUser`: when the server answers it returns the removed user, or "no documents" for an absent id; with the server unreachable it returns the zero user and changes nothing |
| `UserCore.UserService.GetUserByEmail` | core/user-core.go:90-111 | it changes nothing, and its result is the repository's lookup by email; with the server answering, it succeeds exactly when the email is stored |
| `UserCore.UserService.GetUserById` | core/user-core.go:66-88 | it changes nothing, and its result is the repository's lookup by id; with the server answering, it succeeds exactly when the id is stored |
| `Store.Database.constructor` | main.go:21 | the opened database holds exactly the documents it is given, and its server answers |
| `Lifecycle.ApplyKeepsSessions` | repository/authentication-repository.go:70-80 | no single call removes a session or changes anything of it but `updatedAt` |
| `Lifecycle.RunKeepsConsistent` | repository/user-repository.go:34-47 | across any sequence of calls, rows stay keyed by their ids and stored emails stay pairwise distinct |
| `Lifecycle.RunKeepsSessions` | repository/authentication-repository.go:70-80 | across any sequence of calls, no session row is removed, and none changes its id, owner or creation time |
| `Lifecycle.LoginThenAuthenticate` | core/authentication-core.go:57-124 | the access token from a successful login authenticates for its lifetime, with the claims of the user with that email and the new session id |
| `Lifecycle.LoginThenRefresh` | core/authentication-core.go:57-183 | refreshing with a login's refresh token during its lifetime succeeds and hands back the same refresh token; the new access token is for the same user and session and authenticates; the session's `updatedAt` strictly advances |
| `Lifecycle.LogoutDoesNotRevoke` | core/authentication-core.go:191-215 | after logging out with a login's access token, that token still authenticates; the logout fails with "no documents" unless a user has the session's id |
| `Lifecycle.ExpiredRefreshKeepsSession` | core/authentication-core.go:140-150 | an expired refresh token leaves its session in place; the call fails with "no documents", or, when a user has that id, deletes that user and returns no output and no error |
| `Lifecycle.CreateThenLogin` | core/user-core.go:47-57 | a newly created user can log in with the password it was created with, and the token carries its email, new id, the `Tenant` role and the new session |
| `Lifecycle.CreateStoresHash` | core/user-core.go:47-53 | the stored password is a hash that matches the supplied password and is never the password itself; the stored role is `Tenant` |
| `Lifecycle.OutageAuthenticates` | repository/authentication-repository.go:58-68 | with the server unreachable, every correctly signed access token authenticates |
| `Lifecycle.OutageRefreshIssuesEmptyClaims` | core/authentication-core.go:152-183 | with the server unreachable, a valid refresh token yields an access token signed from the zero user and the zero session id |

## Left out

- HTTP routing, controllers and server start-up (`controllers/controllers.go`, `routes/routes.go`, `main.go`) are transport plumbing and not part of this model. The wiring at main.go:22-25, where both repositories and both services share one database, is stated by the services' `Valid()`, not by a model of `RunApp`.
- Store.Database.constructor: requires the opened database to be consistent already (every document stored under its own `_id`, no two users with one email). A database written by other programs, with duplicate emails, is not modelled.
- AuthenticationRepo.DeleteById: the deleted `users` document is decoded into a `models.Session`, and the model keeps only its `_id` and zeroes the other fields. The `models` definitions are not part of this model, and no caller reads this result.
- MongoDB sessions and transactions (`StartSession`, `StartTransaction`, `CommitTransaction`, `AbortTransaction`, `EndSession`) are left out. The repository calls do not run inside them. The early error returns when a session or transaction cannot be started are not modelled.
- The JWT library's and bcrypt's internals are foreign code that is not part of this model. The model uses the `Codec` and `Hasher` function values, and lemmas take `SoundCodec` and `SoundHasher` as hypotheses. Hashing is a function here, whereas bcrypt salts each hash.
- Expiry arithmetic is reduced to a lifetime per token kind (`accessTtl`, `refreshTtl`) inside `SoundCodec`.
- A verifier result with neither claims nor an error is not represented. `Authenticate` would dereference nil on it.
- `time.Now` is a `now` parameter per call, so `PasswordLogin`'s two clock reads are one value. `primitive.NewObjectID` is a `freshId` parameter, and a taken id is a duplicate-key error.
- Driver failures are modelled only as a whole-call outage (`online` is false for the entire call). A failure between two round trips of one call is not modelled, and neither is a stored document that fails to decode.
- Logging through `utils.Logger` is left out.
- Go pointer identity is not modelled. Results are the values the returned pointers point to. In the source, `CreateUser`'s result is the caller's own record.
- The `NilObjectID` that the session `InsertOne` pairs with an error is not represented, because callers never read it.
- `GetUserById` reads the user id from the request context; here the id is a parameter.
- Fields of `models.User`, `models.Session` and the claims that these files do not touch are not part of this model. Neither are the registered JWT claims.
- Concurrent requests are not modelled. Each call is one atomic step of the state machine.
