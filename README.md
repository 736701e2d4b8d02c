# welwitschi-auth: accounts and sessions, in Dafny

A model of the account-and-session state machine of welwitschi-auth, a PHP
authentication library. The MySQL tables `accounts` and `sessions` are
in-memory maps keyed by account id, held by a `Database` object that the
library's classes update in place.

- `Vault` (vault.dfy): the credential primitives.
  - `password_hash` is an abstract `Hashed(secret, salt)`.
  - `password_verify` compares secrets, and a NULL column never verifies.
  - `bin2hex` is `Hex`, with `Unhex` as its inverse.
- `Store` (store.dfy): the two tables and the statements the library runs on them.
  - The `UPDATE`s on `accounts` are `SetPwHash` and `SetConfirmed`.
  - The two `INSERT … ON DUPLICATE KEY UPDATE` upserts on `sessions` are `UpsertLogin` and `UpsertApi`.
  - The row delete is `DeleteSession`.
  - The token checks are `LoginValid` and `ApiValid`.
  - `UniqueKeys` is the unique-key invariant on `accounts`.
  - Lemmas state what each statement does to the rows and to the checks.
- `Sessions` (sessions.dfy): the `SessionManager` class. It owns one user's
  optional `sessions` row. Its two upserts each write one column and keep the
  other, and its two validators fail closed when the row is missing.
- `Users` (users.dfy): the `User` class, the in-memory projection of one
  `accounts` row.
  - It caches `pwHash`, `confirmed` and `confirmationToken` and holds a
    `SessionManager`.
  - PHP's `$_SESSION` is the explicit `SessionContext` object, with optional
    `userId` and `loginToken`.
  - `Valid()` ties the cached fields together.
  - `InSync()` says that the cache agrees with the stored row. Every
    operation preserves it.
- `Scenarios` (scenarios.dfy): client methods. Each one walks through a life
  cycle exercised by the library's tests and proves the outcomes those tests
  assert, using only the contracts above.

Random bytes (`random_bytes(64)`, `random_bytes(20)`) and the salt that
`password_hash` draws are parameters of the operations. A length
precondition states how many bytes each one draws.

## Model

| member | source | states |
|---|---|---|
| Vault.PasswordHash | src/User.php:208 | the hash verifies the hashed secret and no other secret |
| Vault.VerifyExactlyTheSecret | src/SessionManager.php:53 | a stored hash verifies exactly its own secret; a NULL column verifies nothing |
| Vault.Verify | src/SessionManager.php:53 | a NULL column never verifies; a stored hash verifies iff it is a hash of the secret, i.e. the secrets are compared |
| Vault.HashesAreSalted | src/test/SecurityTest.php:50-60 | two hashes of one secret with different salts differ, and both verify the secret |
| Vault.Hex | src/SessionManager.php:92 | bin2hex yields two lower-case hex digits per byte (128 characters for 64 bytes, 40 for 20) |
| Vault.UnhexHex | src/User.php:177 | bin2hex is lossless: decoding the token gives back exactly the random bytes |
| Vault.HexInjective | src/SessionManager.php:92 | two tokens are equal iff their random bytes are equal |
| Store.SetPwHash | src/User.php:233-236 | the row `id`, if present, gets the new pw_hash; every other row and the set of ids are unchanged |
| Store.SetConfirmed | src/User.php:104-109 | the row `id`, if present, gets confirmation 'confirmed'; every other row and the set of ids are unchanged |
| Store.UpdatesKeepUniqueKeys | src/Authenticator.php:61-63 | the pw_hash and confirmation updates preserve the primary and unique keys on id, username and email |
| Store.UpsertLogin | src/SessionManager.php:95-101 | the row `id` exists afterwards with the new login_hash; its api_hash is kept, or is NULL on a new row; other rows are unchanged |
| Store.UpsertApi | src/SessionManager.php:116-122 | the row `id` exists afterwards with the new api_hash; its login_hash is kept, or is NULL on a new row; other rows are unchanged |
| Store.DeleteSession | src/SessionManager.php:131-133 | the row `id` is gone; every other row is unchanged |
| Store.MissingRowFailsClosed | src/SessionManager.php:47-70 | with no row for the user, neither the login check nor the API check accepts any input |
| Store.UpsertLoginEffect | src/SessionManager.php:91-106 | after a login upsert the row accepts exactly the new token, and the API check gives what it gave before |
| Store.UpsertApiEffect | src/SessionManager.php:113-125 | after an API upsert the row accepts exactly the new key, so an earlier key stops validating; the login check gives what it gave before |
| Store.InsertedRowHasNullColumn | src/SessionManager.php:96-119 | a row inserted by one upsert has NULL in the other column, so the other check rejects everything |
| Store.DeleteSessionEffect | src/SessionManager.php:130-135 | after the delete the row is gone and both the login check and the API check reject everything |
| Store.OtherRowsIsolated | src/SessionManager.php:91-135 | every statement is keyed by one user id; login and API checks against any other user's row give what they gave before |
| Sessions.SessionManager.constructor | src/SessionManager.php:37-40 | the manager is bound to its user's id and to the user's database |
| Sessions.SessionManager.GetTokenHashes | src/SessionManager.php:77-84 | the user's row, or None iff there is no row for the user |
| Sessions.SessionManager.IsValidLoginToken | src/SessionManager.php:47-55 | equals `Store.LoginValid` on the user's row: false without a row, otherwise `Vault.Verify` of the token against login_hash |
| Sessions.SessionManager.IsValidApiToken | src/SessionManager.php:62-70 | equals `Store.ApiValid` on the user's row: false without a row, otherwise `Vault.Verify` of the key against api_hash |
| Sessions.SessionManager.Login | src/SessionManager.php:91-106 | returns the 128-character hex token; the table is the login upsert of its hash; afterwards exactly that token validates and API validation is unchanged |
| Sessions.SessionManager.StoreApiKey | src/SessionManager.php:113-125 | the table is the API upsert of the key's hash; afterwards exactly that key validates and login validation is unchanged |
| Sessions.SessionManager.WipeLoginSession | src/SessionManager.php:130-135 | the row is deleted: GetTokenHashes is None and no login token and no API key validates |
| Users.SessionContext.constructor | src/util.php:8-13 | a started session with neither `user_id` nor `login_token` set |
| Users.User.constructor | src/User.php:46-60 | confirmed iff the confirmation string is 'confirmed', with a null token in that case; GetConfirmation returns the constructor's string; a user loaded from its row is in sync with it |
| Users.User.GetConfirmation | src/User.php:81-83 | 'confirmed' iff the account is confirmed; otherwise the pending token |
| Users.User.DoesPasswordMatch | src/User.php:90-92 | true iff the cached hash is a hash of the password |
| Users.User.Confirm | src/User.php:100-118 | succeeds iff the token equals the pending token; on success the account is confirmed, the token becomes "" and the row's confirmation becomes 'confirmed'; on failure no field and no row changes |
| Users.User.IsLoggedIn | src/User.php:148-157 | true iff the session holds a login token and `Store.LoginValid` accepts it for this user's row; the session's `user_id` plays no part |
| Users.User.Login | src/User.php:127-142 | false while unconfirmed; true without a new token when already logged in; otherwise true iff the password matches, and then the session holds the user's id and the new token and the user is logged in; on false, nothing changes |
| Users.User.Logout | src/User.php:163-166 | both session keys are unset, so no user is logged in on the session |
| Users.User.GenerateNewApiKey | src/User.php:174-184 | null and no write while unconfirmed; otherwise a 128-character hex key whose hash is upserted, after which exactly that key verifies |
| Users.User.VerifyApiKey | src/User.php:191-193 | equals `Store.ApiValid` on this user's row, so it is false without a row |
| Users.User.ChangePassword | src/User.php:204-222 | succeeds iff the previous password matches; then the cache and the row get the same hash of the new password, the new password matches and a different old one does not; on failure nothing changes |
| Users.User.ResetPassword | src/User.php:229-243 | returns a 40-character hex password that matches; the row and the cache get its hash; the session row is deleted, so the user is logged out on every session and no API key verifies |
| Scenarios.ConfirmBeforeLogin | test/AccountActionTest.php:187-201 | an unconfirmed account cannot log in and a wrong token does not confirm it; after the right token, login succeeds and a further non-empty token is rejected |
| Scenarios.TwoUsersOneSession | test/AccountActionTest.php:81-99 | on a shared session only the user whose token it holds is logged in; after the second user's wrong password the first user is still logged in and the session's `user_id` is still the first user's; after the second user's login that user is logged in, the first is not, and the session's `user_id` is the second user's |
| Scenarios.LogoutAndLoginAgain | test/AccountActionTest.php:113-127 | a logout through any user empties the session, and a new login then succeeds |
| Scenarios.ChangePasswordFlow | test/AccountActionTest.php:134-161 | a wrong previous password changes nothing; the right one keeps the session, and afterwards only the new password logs in; the row holds the cached hash |
| Scenarios.ResetWhileLoggedIn | test/AccountActionTest.php:166-181 | after a reset the user is logged out, the old password fails, the returned 40-character one matches, and the row holds the cached hash |
| Scenarios.SaltedRehash | src/test/SecurityTest.php:50-60 | changing a password to itself stores a different hash |
| Scenarios.ApiKeyLifecycle | test/ApiTest.php:51-60 | no key validates before one is issued; an unconfirmed user gets null; once confirmed, the issued 128-character key validates and a different key does not |

Notes on the source:

- `confirm` compares the token with `===` against the cached token, and on
  success sets that token to `""` rather than to null
  (src/User.php:101, 113). On the same instance, `confirm("")` therefore
  succeeds again, and it writes the same state again. The model keeps this
  behaviour: `Users.User.Confirm` succeeds iff the token equals the cached one.
  A user loaded as confirmed has a null token and rejects every token.
- The comment on `resetPassword` promises a 20-character password
  (src/User.php:225-226). The code returns `bin2hex(random_bytes(20))`, which
  has 40 characters (src/User.php:230). The model follows the code.
- `logout` only unsets the session keys. The stored login hash stays, so a
  token kept elsewhere would still be accepted by `IsLoggedIn`.

## Left out

- Users.User.ChangePassword: models the intended `pw_hash := hash` on row `id`. The source binds its parameters with the type string `"is"` against `(hash, id)` (src/User.php:213), the reverse of `resetPassword`'s `"si"` (src/User.php:236). As written, the `"i"` slot converts the `$2y$…` hash string to the integer 0, so the row would hold pw_hash "0" while the cache holds the real hash. That breaks the cache-and-row agreement `InSync` states, and it contradicts the test's assertion that the row equals the cached hash (test/AccountActionTest.php:160). The model does not reproduce this coercion.
- `Authenticator::createUser`, `getUser*` and `deleteUser` are not part of this model. Their source is not among the files modelled. Only the table's unique keys (src/Authenticator.php:61-63) are kept, as the `UniqueKeys` invariant that the User updates preserve.
- `changeUsername` and `changeEmail` are not part of this model, because src/User.php does not define them.
- `getRawUsername` and `getRawEmailAddress` are left out. They only undo HTML escaping for display.
- `initializeSession` (src/util.php) only sets cookie parameters and starts the PHP session. That is I/O. A started, empty session is `SessionContext`'s constructor.
- Vault.PasswordHash, Vault.VerifyExactlyTheSecret, Store.UpsertLoginEffect, Store.UpsertApiEffect, Sessions.SessionManager.Login, Sessions.SessionManager.StoreApiKey and Users.User.GenerateNewApiKey: their "exactly this secret" and "no other secret verifies" clauses hold for the abstract hash only. bcrypt reads at most the first 72 bytes of its input, so a real hash also verifies any secret that shares those 72 bytes. This applies to the 128-character login tokens and API keys, whose last 56 characters bcrypt ignores. The `!DoesPasswordMatch(previous)` clause of Users.User.ChangePassword has the same limit for passwords longer than 72 bytes.
- bcrypt is abstract. Its cost factor, the encoded hash format and `password_verify`'s type juggling are not modelled. The salt is a caller-supplied byte sequence of any length.
- Entropy is not modelled. `random_bytes` is a caller-supplied sequence, so two draws are distinct only when the caller says so (as `Scenarios.TwoUsersOneSession` requires).
- mysqli prepare, bind and execute, commits, transactions and SQL failures are left out. Every statement succeeds and takes effect at once.
- Concurrent requests against the shared store are left out. The model is single-threaded.
- The `sessions` table's definition is not part of this model. The upserts `UpsertLogin` and `UpsertApi` assume that `user_id` is a primary or unique key, so that `ON DUPLICATE KEY UPDATE` hits the user's existing row. That is why `sessions` is a map keyed by user id.
- `username` and `email` are constants of a `User`, because no modelled operation writes them.
