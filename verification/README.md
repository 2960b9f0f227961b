# Verification model of the multi-tenant backend

A Dafny model of the four stateful parts of the backend and of the properties they
promise:

- **refresh-token rotation with reuse detection**: login stores a row, refresh
  rotates it, logout revokes it, replaying a revoked token revokes all of the
  user's rows;
- **tenant-scoped transactions** over a shared connection pool with row-level
  security, and registration under the unique `(tenant_id, email)` constraint;
- **the fixed-window rate limiter** with its Lua script, keys and headers;
- **duration parsing and expiry arithmetic**, down to the `exp` claim of a JSON Web
  Token (RFC 7519, sections 2 and 4.1.4).

`dafny verify dfyconfig.toml` checks all of it.

## How the model is built

Each protocol appears twice. A **step machine** has one event per awaited operation,
any number of requests in any interleaving, and a failure possible at every database
operation; the main theorems range over all its runs. Next to it stand **classes** with
the source's own fields and methods, updated in place and proved against functions on
the state. Link lemmas show that what the methods compute is what the machine does
when a request runs alone (`AuthLink.MachineServes`, `TenantLink.RunIsOneSchedule`).

| file | part |
|---|---|
| Prelude, Tokens | identifiers, claims, tokens, expiry |
| RefreshTokens, AuthUsecase | the refresh-token repository and the auth use case, as classes |
| AuthSteps, AuthInvariant, AuthTheorems, AuthReuse, AuthSuccessors | the step machine of login, refresh and logout, its invariant, and what holds in every interleaving |
| AuthSerial, AuthMeaning, AuthLink | requests served one at a time, failing or not: chains, family kill, what each request does row by row; the link to the step machine, and schedules from the start |
| TenantTables, TenantMachine | tables under the policy; the pool machine |
| PoolTheorems, Isolation, Registration | hygiene and progress, non-interference, the registration race |
| TenantTransactions, TenantUsecases, NoteRoutes, TenantLink | `TenantTransaction.run`, repositories, user use case, middleware and controller as classes; the link to the pool machine |
| Provenance | both machines joined: where notes come from |
| Duration, RateKey, RateLimit, RateBuckets | parser and dates; limiter keys, counters and guard; both joined |

History variables (`birth`, `minted`, `accessSigned`, `logins`, `done`, `logs`,
`writer`, `tokens`, `seen`, `sessions`) record what happened. The program's branches
never read them, except that `minted` and `accessSigned` decide which presented tokens
verify.

## What the outside world is trusted for

- Only the server signs; the access and the refresh secret differ; SHA-256 is
  injective; `randomUUID()` and `gen_random_uuid()` never repeat a value. The JWT
  library takes `iat` and the verifier's clock in whole seconds, rounded down, and
  rejects a token whose `exp` is not after that clock.
- A commit is atomic, that of an autocommitted statement on one row included; a statement
  reads what is committed when it runs; a COMMIT that reports failure was not applied. An
  UPDATE over several rows (`revokeAllForUser`) finds them when it starts and takes effect
  at a later instant, as it may wait for an open rotation's row lock: rows inserted in
  between escape it, rows revoked in between are left as they are.
- `set_config(..., true)` reverts at commit and at rollback. An insert that conflicts
  with another open transaction's insert waits for that transaction. The policy's check
  precedes the unique index. The application's role does not bypass the policies.
- The driver marks a transaction active before it sends BEGIN, and a connection whose
  ROLLBACK failed is discarded on release.
- The counter store runs a script atomically, keeps a key while the clock has not passed
  its deadline, and rounds TTLs to whole seconds.
- One clock that never goes back. Clock readings, generated identifiers, bcrypt results
  and failures are parameters.

## What the proofs found

- **At most one successor** holds when requests do not overlap and fails otherwise:
  `refresh` checks the row it read, and the update in `rotate` is keyed by id only.
  `AuthSuccessors.AtMostOneSuccessorIff` gives the exact condition for every row of every
  reachable state: at most one successor stored or on its way, and, while the row is
  active, an expired token with at most one refresh left that verified it earlier.
  `AuthSuccessors.OverlappingRefreshesForkTheChain` is the schedule that forks.
- **Revoke-all is final** likewise. `AuthReuse.RevokeAllFinalIff`: it is final if and only
  if it found all rows of the user that are active and no request of that user is past
  its checks. `AuthLink.RevokeAllNotFinal` runs the failing schedule from the empty system:
  a login, a refresh that has read the row, another that rotates it, and a replay whose
  revoke-all leaves no active row while the first refresh is still to store one.
  `AuthLink.AcceptableTokensExistIff`: such states exist exactly if refresh tokens live at
  least one second.
- The comment on `resolveExpiryDate` says it takes the same strings as the JWT library.
  `Duration.ReadingsAgreeIff` compares the two on a number, a gap of spaces and a unit: the
  function rejects a gap before the unit, which the library allows, and reads a bare number
  as a thousand times what the library reads. What always holds is that the row outlives
  the token (`Duration.SpansOfAnyConfiguration`), so `refresh` need not read `expires_at`
  (`AuthTheorems.AcceptedBeforeRowExpiry`).
- Cookie and row lifetime agree for every start instant until the end of the date range
  is reached; `Duration.CookieAndRowAgree` gives the exact condition.
- The limiter's exact maximum over any interval is `RateLimit.Peak`
  (`RateLimit.IntervalBound`, `RateLimit.BoundTight`). Over k windows that is one request
  fewer than k + 1 limits as long as k is below the window's milliseconds
  (`RateLimit.PeakOfWindows`).
- Keys collide only outside the stated character conditions;
  `RateKey.SlashedAddressCollides` shows a collision.

## Model

| member | source | states |
|---|---|---|
| AuthInvariant.NextInv | backend/src/use-cases/auth/auth.usecase.ts:66-172 | Every step of every request, failures and clock ticks included, keeps the invariant: signed tokens carry claims of a login, rows are the stored form of the token signed under their id, parents are older, revoked and of the same claims, pointers name the newest child, a granted token has its row. |
| AuthInvariant.NextGrows | backend/src/infrastructure/orm/repositories/refresh-token.repository.ts:18-57 | No step deletes a row, changes its owner, hash or expiry, clears a revocation or a pointer, or forgets a signature. |
| AuthInvariant.RunInv | backend/src/use-cases/auth/auth.usecase.ts:66-172 | Invariant and growth over runs of any length and interleaving. |
| AuthTheorems.PointerTarget | backend/src/infrastructure/orm/repositories/refresh-token.repository.ts:31-46 | A non-null `replaced_by_token_id` sits on a revoked row and names an existing, later-inserted row of the same user and tenant, the newest of the row's children. |
| AuthTheorems.PointerPathsIncrease | backend/src/infrastructure/orm/repositories/refresh-token.repository.ts:31-46 | Along any path of pointers insertion times grow by at least one step per hop. |
| AuthTheorems.PointerPathsEnd | backend/src/infrastructure/orm/repositories/refresh-token.repository.ts:31-46 | Following pointers never meets a row twice and ends within as many hops as the run had steps. |
| AuthTheorems.RevocationIsPermanent | backend/src/infrastructure/orm/repositories/refresh-token.repository.ts:38-57 | `revoked_at` never returns to null in any continuation. |
| AuthTheorems.RotationAllOrNothing | backend/src/infrastructure/orm/repositories/refresh-token.repository.ts:28-46 | In every reachable state, whatever failed, an unfinished rotation shows neither of its writes, and a stored successor comes with a revoked parent that points at it or at a newer one. |
| AuthTheorems.ClaimsOfRoot | backend/src/use-cases/auth/auth.usecase.ts:96-105 | The claims signed under a row, and the row's user and tenant, equal those of the login at the root of its chain. |
| AuthTheorems.GrantedClaims | backend/src/use-cases/auth/auth.usecase.ts:66-105 | Access and refresh token returned by any login or refresh carry, field by field, the id, tenant, role and email of the login at the chain's root. |
| AuthTheorems.FoundRowMatchesToken | backend/src/use-cases/auth/auth.usecase.ts:79-97 | Whenever `refresh` finds a row, hash, user and tenant match the presented token, so only the revoked and the active branch remain. |
| AuthTheorems.AcceptedBeforeRowExpiry | backend/src/use-cases/auth/auth.usecase.ts:135-172 | A token that verifies is strictly before the `expires_at` of its row, a column `refresh` never reads. |
| AuthTheorems.TokensExpire | backend/src/use-cases/auth/auth.usecase.ts:124-140 | In every interleaving no signed access or refresh token expires later than one signed now would, each kind by its own lifetime. |
| AuthTheorems.VerifiesUntilExpiry | backend/src/use-cases/auth/auth.usecase.ts:162-172 | Once signed, a refresh token verifies until its expiry and not after, whatever runs in between. |
| AuthTheorems.AccessTokensLast | backend/src/use-cases/auth/auth.usecase.ts:124-129 | An access token carries its flow's claims and verifies in every continuation until two seconds short of the access lifetime after its signing, and not from that lifetime on. |
| AuthTheorems.RefreshTokensLast | backend/src/use-cases/auth/auth.usecase.ts:131-140 | The same of a refresh token, its `jti` and the refresh lifetime. |
| AuthTheorems.RowsExpireOnTime | backend/src/use-cases/auth/auth.usecase.ts:142-151 | A row's `expires_at` is exactly the row lifetime after the instant it is built. |
| AuthTheorems.FailuresAreReal | backend/src/use-cases/auth/auth.usecase.ts:78-122 | A request ends in a database failure only if one of its own database operations failed. |
| AuthTheorems.LogoutRevokes | backend/src/infrastructure/orm/repositories/refresh-token.repository.ts:48-50 | The revoke of a logout stamps its token's row with the instant and changes no other. |
| AuthTheorems.LoggedOutRowIsRevoked | backend/src/use-cases/auth/auth.usecase.ts:114-122 | In every interleaving a logout with a verified token that ends without a failure of its own leaves that token's row revoked. |
| Tokens.ExpWithinTwoSeconds | backend/src/use-cases/auth/auth.usecase.ts:124-140 | A token's `exp` lies at most its lifetime after signing, and less than two seconds short of it. |
| Tokens.ExpNeverLaterThanRow | backend/src/use-cases/auth/auth.usecase.ts:135-151 | Signing before the row's date is taken, flooring, and a lifetime no longer than the row's never put `exp` past the stored date. |
| AuthTheorems.DeliveredTokenOutcome | backend/src/use-cases/auth/auth.usecase.ts:78-105 | Refreshing a token that was ever returned to a client ends in rejection exactly if it has expired, otherwise in success, already-used or, if one of its own database operations failed, a database failure; never in no-record or hash mismatch. |
| AuthReuse.SurvivorsOfRevokeAll | backend/src/use-cases/auth/auth.usecase.ts:86-94 | A revoke-all finds the user's rows at one step and takes effect at step t. In every later state of every interleaving an active row of that user was inserted after the search (after t, if nothing ran in between), and its ancestry through such rows ends at a login or at a refresh whose read preceded t. |
| AuthReuse.ReplayRevokesAllStored | backend/src/use-cases/auth/auth.usecase.ts:78-89 | In every interleaving a replay of a revoked token that ends without a failure of its own is answered as already used, and every row of that user stored before it arrived is revoked from then on. |
| AuthReuse.RevokeAllMeaning | backend/src/infrastructure/orm/repositories/refresh-token.repository.ts:52-57 | A revoke-all stamps active rows of its user only, and every one stored before its search. |
| AuthReuse.RevocationFinalIff | backend/src/use-cases/auth/auth.usecase.ts:86-103 | With all rows of a user revoked, no continuation without a new login gives the user an active row, if and only if no request of that user is past its checks. |
| AuthReuse.RevokeAllFinalIff | backend/src/use-cases/auth/auth.usecase.ts:86-89 | A replay's revoke-all is final in that sense if and only if it found every row of the user that is active and no request of that user is past its checks. |
| AuthReuse.FlowCanFinish | backend/src/use-cases/auth/auth.usecase.ts:96-105 | A request past its checks can always run to its end alone, storing one new active row and disturbing no other. |
| AuthReuse.OnlyNewLoginsRevive | backend/src/use-cases/auth/auth.usecase.ts:66-105 | With all rows revoked and nothing in flight, every active row of any later state descends from a login stored afterwards. |
| AuthReuse.RevocationReachesAccessTokens | backend/src/use-cases/auth/auth.usecase.ts:50-58 | With all rows of a user revoked, nothing in flight and no new login, once an access lifetime has passed no access token of that user verifies, whatever else runs. |
| AuthSuccessors.AtMostOneSuccessorIff | backend/src/infrastructure/orm/repositories/refresh-token.repository.ts:31-46 | For every row of every reachable state: no continuation gives it two successors, if and only if at most one successor is stored or on its way, none beside a stored one, and, while the row is active, its token has expired and at most one refresh that verified it earlier is left. |
| AuthSuccessors.SingleStep | backend/src/infrastructure/orm/repositories/refresh-token.repository.ts:31-46 | Every step of every request keeps that condition. |
| AuthSuccessors.NotSingleForks | backend/src/infrastructure/orm/repositories/refresh-token.repository.ts:31-46 | Where any part of it fails, a continuation that forks the chain. |
| AuthSuccessors.SuccessorsOverlap | backend/src/infrastructure/orm/repositories/refresh-token.repository.ts:40-43 | Two successors of one row come only from rotations that overlap: each read the row before the other committed. |
| AuthSuccessors.OverlappingRefreshesForkTheChain | backend/src/infrastructure/orm/repositories/refresh-token.repository.ts:40-43 | From every reachable state with an acceptable token, two overlapping refreshes of it leave its row with two active successors. |
| AuthSuccessors.ReplayMissesRefreshInFlight | backend/src/use-cases/auth/auth.usecase.ts:86-103 | From every reachable state with an acceptable token there is a schedule in which a replay's revoke-all leaves the user no active row while a refresh that read before it is still to store one. |
| AuthLink.RevokeAllNotFinal | backend/src/use-cases/auth/auth.usecase.ts:66-105 | Such a revoke-all is reached from the empty system, for every user, if refresh tokens live a second at least. |
| AuthLink.AcceptableTokensExistIff | backend/src/use-cases/auth/auth.usecase.ts:131-172 | Some reachable state has a token that `refresh` would accept if and only if refresh tokens live at least one second. |
| AuthSerial.ServeMirrors | backend/src/use-cases/auth/auth.usecase.ts:78-105 | One request at a time, failing or not, keeps every stored row that of the token signed under its id, and never reaches the hash-mismatch branch. |
| AuthSerial.GrantedIsStored | backend/src/use-cases/auth/auth.usecase.ts:131-160 | A granted refresh token has its row for good, so the no-record branch is left to tokens whose write failed and which nobody received. |
| AuthSerial.SerialChains | backend/src/use-cases/auth/auth.usecase.ts:78-160 | Serial execution, requests failing or not, from any partitioned table keeps the rows a set of disjoint simple chains along the pointers, only their tails active; the chains are, in order, those before and one for each granted login, headed by the row that login stored. |
| AuthSerial.SerialChainsFromEmpty | backend/src/use-cases/auth/auth.usecase.ts:78-160 | From the empty table the chains are exactly those of the granted logins, each headed by its login's row. |
| AuthSerial.PartitionMeaning | backend/src/infrastructure/orm/repositories/refresh-token.repository.ts:31-46 | In such a table a row has at most one predecessor, a row with a successor is revoked, and a chain has at most one active row. |
| AuthSerial.ServeActiveRows | backend/src/use-cases/auth/auth.usecase.ts:78-122 | What one request does to a user's set of active rows: a granted login adds one, a replay empties it, a rotation swaps one for one, anything else, failures included, only shrinks it. |
| AuthSerial.ActiveBoundedByLogins | backend/src/use-cases/auth/auth.usecase.ts:78-105 | Over any serial history, with any failures, a user's active rows never exceed the user's granted logins since the last revoke-all. |
| AuthSerial.FamilyKill | backend/src/use-cases/auth/auth.usecase.ts:86-89 | After any replay of a revoked token, no token of that user signed so far, stored or not, is accepted again, whatever is served in between and whatever fails. |
| AuthSerial.OnlyLoginRevives | backend/src/infrastructure/orm/repositories/refresh-token.repository.ts:52-57 | A user without active rows stays so until that user logs in, whatever fails. |
| AuthMeaning.LogInMeaning | backend/src/use-cases/auth/auth.usecase.ts:66-76 | A login adds exactly one row, of the user's id and tenant, with the token's hash, unrevoked, expiring a row lifetime on, and returns both tokens with the user's claims and their own lifetimes; a failing insert stores and returns nothing. |
| AuthMeaning.RefreshStopsEarly | backend/src/use-cases/auth/auth.usecase.ts:79-84 | A token that does not verify, a failing read and a token without a row change nothing, each with its own answer. |
| AuthMeaning.RefreshKills | backend/src/use-cases/auth/auth.usecase.ts:86-94 | A revoked row, or one stored for another token, costs its user every active row and no one else any, and yields no token. |
| AuthMeaning.RefreshRotates | backend/src/use-cases/auth/auth.usecase.ts:96-105 | The row's own token, the row active: one row is added, the parent is revoked and points at it, nothing else changes, and the tokens carry the presented claims; a failing write changes no row. |
| AuthMeaning.LogOutMeaning | backend/src/use-cases/auth/auth.usecase.ts:114-122 | A logout revokes exactly its token's row if the token verifies and the update succeeds, changes nothing otherwise, and always answers the same. |
| AuthMeaning.NoFaultNoFailure | backend/src/use-cases/auth/auth.usecase.ts:78-122 | A request fails only if the database does. |
| AuthMeaning.PresentedTokenIsUsedOnce | backend/src/use-cases/auth/auth.usecase.ts:86-103 | A verified token with a row, nothing failing: if the row is revoked the user is left without active rows, else it is revoked and replaced by the one new active row. |
| AuthMeaning.RotatedTokenIsSpent | backend/src/use-cases/auth/auth.usecase.ts:86-103 | Presenting a token again after it was rotated, nothing failing, is answered as already used and leaves the user without active rows. |
| AuthMeaning.ReplayEndsTheFamily | backend/src/use-cases/auth/auth.usecase.ts:86-89 | From the table alone: a replay of a token whose row is revoked, nothing failing, ends every token of that user signed so far, whatever is served and fails afterwards. |
| AuthMeaning.LoggedOutForGood | backend/src/use-cases/auth/auth.usecase.ts:114-117 | A token logged out is never granted again, whatever is served and fails later. |
| AuthLink.MachineServes | backend/src/use-cases/auth/auth.usecase.ts:66-122 | Serving one request atomically, with or without a failing statement, is one uninterrupted schedule of the step machine, with the same tables, signatures and reply, and without a failing step if the request has no failure. |
| AuthLink.MachineServesAll | backend/src/use-cases/auth/auth.usecase.ts:66-122 | A whole serial history is one run of the step machine, without failing steps if no request fails. |
| AuthUsecases.AuthUsecase.IssueTokens | backend/src/use-cases/auth/auth.usecase.ts:66-76 | Signs both tokens with the user's claims and stores the refresh token's row, the serial meaning of a login; if the insert fails, both are signed, nothing is stored and nothing returned. |
| AuthUsecases.AuthUsecase.Refresh | backend/src/use-cases/auth/auth.usecase.ts:78-105 | Reply, table and signatures are the serial meaning of a refresh whichever of its read, its revoke-all or a statement of its rotation fails. |
| AuthUsecases.AuthUsecase.Logout | backend/src/use-cases/auth/auth.usecase.ts:114-122 | Revokes the presented token's row if the token verifies and the update succeeds, and is silent otherwise. |
| RefreshTokens.StatementsOnActiveRows | backend/src/infrastructure/orm/repositories/refresh-token.repository.ts:18-57 | Which rows are active after each statement: `create` adds its row, `rotate` swaps parent for child, `revoke` removes one, `revokeAllForUser` exactly the user's. |
| RefreshTokens.StatementsOnOldRows | backend/src/infrastructure/orm/repositories/refresh-token.repository.ts:18-57 | No statement loses a row or changes its owner, hash or expiry, and only a rotation changes a pointer, its parent's. |
| RefreshTokens.RefreshTokenRepository.Rotate | backend/src/infrastructure/orm/repositories/refresh-token.repository.ts:28-46 | Both writes or, if any statement or the commit fails, neither. |
| RefreshTokens.AllRevokedMeaning | backend/src/infrastructure/orm/repositories/refresh-token.repository.ts:52-57 | A revoke-all leaves the user no active row, stamps only rows that were active, and touches no other user's. |
| RefreshTokens.RefreshTokenRepository.RevokeAllForUser | backend/src/infrastructure/orm/repositories/refresh-token.repository.ts:52-57 | Row by row, stamps exactly the user's active rows, or none if it fails. |
| TenantTables.NewestFirstSorts | backend/src/infrastructure/orm/repositories/tenant-note.repository.ts:27-31 | The listing order is descending by creation time and a permutation of the rows. |
| TenantTables.UsersUnderMembers | backend/src/infrastructure/orm/migration/migrations/1785069472500-CreateUsersTableWithRls.ts:37-41 | Under the policy a statement sees a user row if and only if the row's tenant is the transaction's setting. |
| TenantTables.NotesUnderMembers | backend/src/infrastructure/orm/migration/migrations/1785069472465-CreateTenantNotesWithRls.ts:40-44 | The same for notes; with no setting, nothing is visible. |
| PoolTheorems.NextPool | backend/src/infrastructure/context/tenant-transaction.ts:32-54 | Every step keeps the pool invariant: each lease has one holder at the phase its connection's transaction and tenant setting belong to, idle connections are clean, every finished `run` reported the truth. |
| PoolTheorems.Hygiene | backend/src/infrastructure/context/tenant-transaction.ts:32-54 | In every interleaving with any failures: idle connections have no transaction and no tenant, held plus idle never exceed the pool, nobody holds two, a finished request released as often as it connected, and each `run` returned a value exactly if its commit succeeded, else the original error unless rollback threw. |
| PoolTheorems.StepDecreases | backend/src/infrastructure/context/tenant-transaction.ts:16-54 | Every step of an arrived request, failing ones included, lowers a natural-number measure. |
| PoolTheorems.SomeStepEnabled | backend/src/infrastructure/context/tenant-transaction.ts:16-54 | While some request is unfinished, a step that is neither an arrival nor a failure is enabled. |
| PoolTheorems.EverybodyCanFinish | backend/src/infrastructure/context/tenant-transaction.ts:16-54 | From every reachable state a failure-free run bounded by the measure finishes all requests. |
| PoolTheorems.PoolProgress | backend/src/infrastructure/context/tenant-transaction.ts:16-54 | Without arrivals every run is bounded by the measure, and one that could continue only by failing has finished everybody. |
| Isolation.RefinesPrivateDatabase | backend/src/infrastructure/context/tenant-transaction.ts:32-54 | For every run of all tenants, failures included, deleting the other tenants' steps leaves a valid run on a private database without policy in which the tenant's requests, results, connections and rows are the same. |
| Isolation.NonInterference | backend/src/infrastructure/context/tenant-transaction.ts:32-54 | In the shared database itself, deleting every other tenant's steps leaves a valid run in which each request of the tenant, with its result, is the same. |
| Registration.NextReg | backend/src/infrastructure/orm/migration/migrations/1785069472500-CreateUsersTableWithRls.ts:25 | Every step keeps pairs unique, among committed rows and against uncommitted ones, and keeps every outcome true of the table. |
| Registration.ConflictMeansTaken | backend/src/use-cases/user/user.usecase.ts:28-48 | Whatever fails or interleaves, no pair has two rows, and a Conflict means a committed row for that pair. |
| Registration.AtMostOneRegisters | backend/src/use-cases/user/user.usecase.ts:28-48 | Whatever fails or interleaves, no two registrations of one pair both return a user, and a returned user is stored. |
| Registration.RegistrationRace | backend/src/use-cases/user/user.usecase.ts:16-49 | Any number of interleaved registrations of one pair whose own steps do not fail, whatever happens to other requests, once all have ended: exactly one returned a user, all others raised Conflict. |
| TenantTransactions.TenantContextStorage.Run | backend/src/infrastructure/context/tenant-context.storage.ts:18-34 | Wherever a callback asks for the tenant it is told that of the innermost `run` around the question, however deep contexts nest, and the surrounding context is untouched afterwards. |
| TenantTransactions.TenantTransaction.Run | backend/src/infrastructure/context/tenant-transaction.ts:32-54 | For every combination of failures: which value or error results, released exactly once if and only if connected, rows written if and only if a value is returned, pool left healthy; without a context it throws before connecting. |
| TenantTransactions.RunOutcomeMeaning | backend/src/infrastructure/context/tenant-transaction.ts:32-54 | A run returns the work's value if and only if it had a context and a connection and none of its five steps went wrong; otherwise it throws the error of the first that did, unless there was a transaction to roll back and that failed. |
| TenantTransactions.TenantTransaction.Try | backend/src/infrastructure/context/tenant-transaction.ts:37-45 | The try block yields the value or the first error, writes only on commit, and leaves the driver's flag set exactly if a rollback is due. |
| TenantLink.RunIsOneSchedule | backend/src/infrastructure/context/tenant-transaction.ts:32-54 | For every combination of failures the pool machine, running only that request and failing only where the combination says, ends with the outcome and tables that the method's contract names. |
| TenantUsecases.UserRepository.Create | backend/src/infrastructure/orm/repositories/user.repository.ts:20-25 | Stores the row and returns it, or fails and stores nothing; without failures it is refused exactly by the policy or the unique pair. |
| TenantUsecases.UserRepository.FindByEmail | backend/src/infrastructure/orm/repositories/user.repository.ts:27-31 | The context tenant's user with this email, found if and only if there is one; another tenant's never. |
| TenantUsecases.UserRepository.FindById | backend/src/infrastructure/orm/repositories/user.repository.ts:33-37 | The same by id. |
| TenantUsecases.TenantNoteRepository.Create | backend/src/infrastructure/orm/repositories/tenant-note.repository.ts:20-25 | Appends the note, or fails and stores nothing; the policy objects only to another tenant's note. |
| TenantUsecases.TenantNoteRepository.FindAll | backend/src/infrastructure/orm/repositories/tenant-note.repository.ts:27-31 | Exactly the context tenant's notes, newest first. |
| TenantUsecases.UserUsecase.Register | backend/src/use-cases/user/user.usecase.ts:16-49 | Without failures it returns the stored user if and only if the pair was free, else Conflict; a value means this call stored the pair's only row; a unique violation never escapes. |
| TenantUsecases.UserUsecase.ValidateCredentials | backend/src/use-cases/user/user.usecase.ts:51-60 | Returns a user of the context's tenant with this email whose hash matches; unknown email and wrong password give the same error. |
| NoteRoutes.BearerHeaders | backend/src/infrastructure/context/jwt-tenant-context.middleware.ts:57-64 | A header yields a token if and only if it is `Bearer`, one space, that non-empty token without spaces, and nothing or a space after it. |
| NoteRoutes.JwtTenantContextMiddleware.Use | backend/src/infrastructure/context/jwt-tenant-context.middleware.ts:33-55 | The request goes on exactly if its header carries an unexpired access token of this server, then with the claims' user and under the claims' tenant; otherwise nothing changes. |
| NoteRoutes.RoleCheck | backend/src/infrastructure/auth/guards/roles.guard.ts:16-36 | Everybody passes where no role is required, else exactly a user who holds one of them; note writers are all but viewers. |
| NoteRoutes.TenantNoteController.Create | backend/src/infrastructure/presentation/tenant-note/tenant-note.controller.ts:31-40 | Forbidden exactly without role admin or member; otherwise the stored note carries the context's tenant and is what is returned, and the policy never rejects it. |
| NoteRoutes.TenantNoteController.FindAll | backend/src/infrastructure/presentation/tenant-note/tenant-note.controller.ts:42-47 | Returns the context tenant's notes and no others, each as often as stored, newest first, whatever the role, and does return if nothing fails. |
| Provenance.NextSys | backend/src/infrastructure/presentation/tenant-note/tenant-note.controller.ts:31-40 | Every step of the joined machines, role changes behind the application's back included, keeps: notes and note requests were let in by a signed writer's token of their tenant, and logins go back to rows found in their tenant's context. |
| Provenance.NoteProvenance | backend/src/infrastructure/context/jwt-tenant-context.middleware.ts:33-55 | In every reachable state each note was written by a request with a signed access token naming the note's tenant and role admin or member, and that token's claims are those of a login by a user of the same tenant as found at login. |
| Provenance.PolicyNeverRejectsNotes | backend/src/infrastructure/orm/migration/migrations/1785069472465-CreateTenantNotesWithRls.ts:40-44 | On this path WITH CHECK never rejects a note. |
| RateLimit.KeysAreIndependent | backend/src/infrastructure/rate-limit/rate-limit.guard.ts:22-28 | In any interleaved trace the decisions for a key are those of its own requests on a private counter. |
| RateLimit.IntervalBound | backend/src/infrastructure/rate-limit/rate-limit.guard.ts:22-79 | From any counter, whatever arrives, any half-open interval holds at most `Peak` counted admissions: full windows from its start, or the rest of a closing window and full windows after it. |
| RateLimit.PeakOfWindows | backend/src/infrastructure/rate-limit/rate-limit.guard.ts:22-79 | For k windows that peak is at most (k + 1) * limit - 1, and exactly that if and only if the limit is 0, or k lies strictly between 0 and the window's milliseconds, or the limit is 1 and k does not exceed them. |
| RateLimit.RateBound | backend/src/infrastructure/rate-limit/rate-limit.guard.ts:22-79 | From an empty store the peak bounds one key's admissions while all other keys interleave. |
| RateLimit.BoundTight | backend/src/infrastructure/rate-limit/rate-limit.guard.ts:22-79 | For every key, limit, window and interval some counter and trace attain that peak. |
| RateLimit.BoundAttained | backend/src/infrastructure/rate-limit/rate-limit.guard.ts:22-79 | For every key, limit, window and interval from one window after the clock's start on, a trace from the empty store attains it as well. |
| RateLimit.WindowDecisions | backend/src/infrastructure/rate-limit/rate-limit.guard.ts:22-79 | Within a window each request is judged by how many the store ran before it, including those whose reply was lost. |
| RateLimit.WindowAccounting | backend/src/infrastructure/rate-limit/rate-limit.guard.ts:50-76 | Within a window of answered requests exactly the first `limit` are admitted, and an admitted response's Remaining plus the admissions so far is the limit. |
| RateLimit.StoredCounter | backend/src/infrastructure/rate-limit/rate-limit.guard.ts:22-28 | The store holds for each key what that key's private counter would hold. |
| RateLimit.RetryAfterWithinWindow | backend/src/infrastructure/rate-limit/rate-limit.guard.ts:70-73 | Retry-After lies between one second and the window whatever was served before the TTL read, and no counter expires further ahead than its window. |
| RateLimit.RetryAfterTellsWhen | backend/src/infrastructure/rate-limit/rate-limit.guard.ts:70-73 | For a live counter the header is the time left to its deadline to the nearest second, at least one; for a key that is gone it is one. |
| RateLimit.RetryAfterSuffices | backend/src/infrastructure/rate-limit/rate-limit.guard.ts:70-73 | Who waits that many seconds and half a second more is admitted, nothing else arriving for the key. |
| RateLimit.RateLimitGuard.Eval | backend/src/infrastructure/rate-limit/rate-limit.guard.ts:22-28 | The script on the store: counts on in a live window, else opens one with its expiry. |
| RateLimit.RateLimitGuard.CanActivate | backend/src/infrastructure/rate-limit/rate-limit.guard.ts:39-80 | Decision, headers, error and store for every counter state; a lost reply lets the request through without headers; the TTL is read only on rejection, after whatever was served meanwhile, Retry-After tells when the counter then expires, and a failing read still lets nothing through. |
| RateKey.KeyInjective | backend/src/infrastructure/rate-limit/rate-limit.guard.ts:82-91 | Different scopes, or routes of route-specific limits, never share a key, given slash-free ids and addresses, verbs without slash or colon, paths that start with a slash; addresses may contain colons. |
| RateKey.SameCounterIff | backend/src/infrastructure/rate-limit/rate-limit.guard.ts:82-91 | Two requests share a counter if and only if they carry the same tenant, or carry none and come from the same address, and both count by default, or both on the same limited verb and path. |
| RateKey.KeyTexts | backend/src/infrastructure/rate-limit/rate-limit.guard.ts:82-91 | The text of every key. |
| RateKey.SlashedAddressCollides | backend/src/infrastructure/rate-limit/rate-limit.guard.ts:82-91 | Without the conditions a plain key can equal a route-specific one. |
| RateBuckets.BucketBound | backend/src/infrastructure/rate-limit/rate-limit.guard.ts:39-91 | Under any traffic over all routes, one tenant or address is admitted to a limited route, or to all default-limited routes together, at most the peak of those options' counted times in any interval. |
| RateBuckets.BucketBoundInWindows | backend/src/infrastructure/rate-limit/rate-limit.guard.ts:39-91 | So at most (k + 1) * limit - 1 times in any k windows. |
| RateBuckets.LimitedRouteBound | backend/src/infrastructure/rate-limit/rate-limit.guard.ts:39-91 | In any interval, whatever all others send, the requests of one tenant, or of one address without a tenant, to one verb and path with a limit are admitted at most that limit's peak times. |
| RateBuckets.DefaultBound | backend/src/infrastructure/rate-limit/rate-limit.guard.ts:20 | Those to all routes without a limit of their own together: at most the peak of 300 in 60 seconds. |
| RateBuckets.DefaultBoundInMinutes | backend/src/infrastructure/rate-limit/rate-limit.guard.ts:20 | So at most 300 * (k + 1) - 1 of them in any k minutes. |
| Duration.ParseAcceptsExactlyThePattern | backend/src/use-cases/auth/auth.usecase.ts:40-43 | A string parses if and only if it is blanks, digits, an optional unit s, m, h or d, and blanks. |
| Duration.ParseOfSplit | backend/src/use-cases/auth/auth.usecase.ts:44-47 | Such a string reads as its number times its unit, seconds when there is none. |
| Duration.RoundTrip | backend/src/use-cases/auth/auth.usecase.ts:40-47 | Printing any natural number with any unit between any blanks and parsing it gives the number times the unit. |
| Duration.UnitsInNumerals | backend/src/use-cases/auth/auth.usecase.ts:44-47 | The same in milliseconds, unit by unit: 86400000, 3600000, 60000, 1000, and 1000 without a unit. |
| Duration.DocumentedDurations | backend/src/use-cases/auth/auth.usecase.ts:37-47 | 15m, 7d and 3600 read as 900000, 604800000 and 3600000 milliseconds. |
| Duration.ExpiryInNumerals | backend/src/use-cases/auth/auth.usecase.ts:47 | The expiry is the start plus that many milliseconds up to 8640000000000000, and an invalid date beyond. |
| Duration.CookieAndRowAgree | backend/src/use-cases/auth/auth.usecase.ts:107-112 | The cookie's lifetime equals the row's for every start instant if and only if the expiry instant is still a representable date, or the duration itself exceeds the date range. |
| Duration.ReadingsAgreeIff | backend/src/use-cases/auth/auth.usecase.ts:37-48 | On a number, a gap of spaces and a unit, which the JWT library reads: the function accepts if and only if there is no gap before a unit, reads a bare number as a thousand times what the library reads, and agrees with it if and only if the unit follows at once or the bare number is zero. |
| Duration.SpansOfAnyConfiguration | backend/src/use-cases/auth/auth.usecase.ts:135-151 | Whatever duration both the library and the function read, the row's lifetime is at least the token's. |

## Left out

- Wiring: modules, dependency injection, decorators, configuration, the use-case proxy, presenters, DTO validation, interceptors, exception filters, the health check.
- bcrypt, SHA-256 and JWT internals, PostgreSQL, TypeORM and Redis beyond the statements under "What the outside world is trusted for".
- The `tenants` table, its slug lookup, foreign keys and `ON DELETE CASCADE`: rows are never deleted in the model, and a request's tenant is a parameter.
- Cookies, CORS, logging, HTTP headers other than the limiter's three values.
- Connection-acquire timeouts as such: they are the failing `connect` of the pool machine. Which tenant waits for a free connection is a matter of the schedule, and non-interference speaks of results, not of waiting time.
- Nested `run` calls: the pool machine gives a request at most one connection, as the repositories do and as the comment on `TenantTransaction` demands; progress rests on it.
- Asynchronous parts of a callback of `TenantContextStorage.run`: the model's callbacks run to their end; a request's context lasting across its awaits is `AsyncLocalStorage`'s part.
- Waiting in the classes: a method of `TenantTransaction` or of a repository asks for a free connection and no conflicting open insert; waiting is in the pool machine only. The classes run one request at a time, the machines interleave.
- Redis `EXPIRE` with a window of zero seconds, which would delete the key at once; the bounds take a positive window.
- The JWT library's other duration forms (words, fractions, signs, other units, its length limit): `resolveExpiryDate` throws on them, and on a gap before the unit, after the token was signed, so no such configuration stores a row.
- Rounding of products beyond the exact-integer range: they lie beyond the date range too, where both readings give an invalid date.
- The date range in the auth step machine: row expiry is an unbounded instant there.
- Password comparison in the joined machine: a login needs a finished lookup of the user in the tenant's context, and whether the password matched is left open, which only allows more runs.
- `TenantUsecase`, the JWT and local Passport strategies and the `me` route: settled by reading one branch.
- AuthSerial.SerialChains: one successor per row and chains as paths hold of serial execution only; for interleavings AuthSuccessors.AtMostOneSuccessorIff gives the exact condition.
- AuthSerial.FamilyKill: finality of a revoke-all holds of serial execution only; for interleavings AuthReuse.RevokeAllFinalIff gives the exact condition.
- AuthTheorems.AcceptedBeforeRowExpiry: speaks of the instant the token is verified; the later steps of the same `refresh` may run after the row's expiry.
- AuthTheorems.DeliveredTokenOutcome: speaks of requests that have ended; nothing in the auth machine forces a request to end.
- RateLimit.RateBound: requests let through because the store did not answer are not counted.
- RateLimit.BoundAttained: for intervals that start a window or more after the model's clock, which starts at zero; RateLimit.BoundTight has no such limit.
