# Authentication state machine of example-astro-basic

This project models, in Dafny, the local authentication core of an Astro web
application that delegates passwords and email codes to the Faroe identity
provider. The core has three parts:

- three tables: users, ordinary sessions and password-reset sessions;
- the library code that reads and writes those tables (`lib/session.ts`,
  `lib/password-reset-session.ts`, `lib/user.ts`);
- the client library's validators, response parsers and error
  classification (`lib/sdk.ts`).

On top of these sit the request middleware and ten API handlers, each of
which moves a client from one authentication state to another.

The state is a `Db.Database` object. It holds three maps, keyed like the
tables' primary keys, plus the next user id. The cookie jar of a request is
an `Astro.Cookies` object, and the request's locals are a
`Middleware.Locals` object. Every operation that the source writes as a SQL
statement or a cookie update is a method. Each such method modifies exactly
those fields and states its new state through a function on maps, such as
`Sessions.WithoutUserSessions` or `Sessions.ValidateSession`. The
properties the application relies on are lemmas about those functions:

- the fail-closed expiry;
- the sliding 15-day renewal;
- the one-way verified flags;
- the verified-before-reset gate;
- invalidate-all-then-create-one on a password change.

Each handler is a `Post` method. It takes the body fields already parsed
(`None` when parsing fails) and the identity provider's answers
(`Success(...)` or `Failure(error)`). It returns the HTTP status and states,
per path, the requests it sent to the provider (the log `Sdk.Faroe.sent`),
the tables and the cookies it leaves.

Time is one integer `now` in milliseconds per call. The source reads
`Date.now()` up to three times in one validation (`lib/session.ts:35,39,40`).
An expiry is stored as `floor(ms / 1000)` seconds and read back as
`seconds * 1000`. The model keeps that rounding, and the lemmas account for
the second it can lose.

SHA-256 is a parameter of type `seq<byte> -> Digest`: any function yielding
32 bytes. The 20 random bytes of a token are a parameter too.

An expired password-reset session is handled as the code handles it. The
expiry branch of `validatePasswordResetSessionToken` issues its DELETE
against the ordinary `session` table (`lib/password-reset-session.ts:36`).
So the model leaves the expired reset row stored and refuses it on every
later presentation (`PasswordResetSessions.ExpiredPasswordResetSessionStaysRefused`).
The only row that branch can remove is an ordinary session stored under the
same id (`PasswordResetSessions.ExpiredPasswordResetSessionDeletesOnlySameId`).

Two more places where the code is followed as written:

- The joins in both validators are inner joins. A session row whose user
  row is missing gives the null pair and is never deleted, even when it
  has expired (`Sessions.ValidateSessionFailClosed`).
- The signup handler has its own username test: 3 to 31 characters, with
  at least one ASCII letter or digit. It does not call
  `verifyUsernameInput`, and the two tests disagree in both directions
  (`Signup.SignupAcceptsThreeLetters`,
  `Signup.SignupAcceptsSurroundingSpaces`, `Signup.SignupRefusesUnderscores`).

## Model

| member | source | states |
|---|---|---|
| Encoding.EncodeHexLowerCase | lib/session.ts:9 | two symbols of the lower-case hexadecimal alphabet per byte |
| Encoding.HexRoundTrip | lib/session.ts:9 | decoding the hexadecimal encoding of any byte string gives that byte string back |
| Encoding.HexInjective | lib/session.ts:9 | distinct byte strings never share a hexadecimal encoding |
| Encoding.EncodeBase32LowerCaseNoPadding | lib/session.ts:80 | unpadded base32 of n bytes has ceil(8n/5) symbols, all from `a`-`z` and `2`-`7` |
| Encoding.ToLowerAscii | src/pages/api/login.ts:23 | `toLowerCase` keeps the length, lower-cases each character in place and leaves no upper-case ASCII letter |
| Encoding.ToLowerAsciiIdentity | lib/session.ts:80 | lower-casing a string with no upper-case letter is the identity |
| Encoding.LowerCaseBase32Unchanged | lib/session.ts:80 | the `.toLowerCase()` applied to a generated token changes nothing |
| Encoding.Utf8EncodeChar | lib/session.ts:9 | a character encodes to one to four bytes, and to one byte, its own code, exactly when it is ASCII |
| Encoding.Utf8Encode | lib/session.ts:9 | the `TextEncoder` bytes of n characters number between n and 4n |
| Encoding.Utf8EncodeAscii | lib/session.ts:9 | an ASCII token encodes to one byte per character, that character's code |
| Sdk.VerifyPasswordInput | lib/sdk.ts:558-560 | the predicate is the specification itself: a password is accepted when it has 8 to 127 characters |
| Sdk.TrimStart | lib/sdk.ts:563 | the result is a suffix of the input, everything removed is whitespace, and the result does not start with whitespace |
| Sdk.TrimEnd | lib/sdk.ts:563 | the result is a prefix of the input, everything removed is whitespace, and the result does not end with whitespace |
| Sdk.TrimIdentity | lib/sdk.ts:563 | a string equals its trim if and only if it is empty or neither its first nor its last character is whitespace |
| Sdk.VerifyEmailInputCharacterised | lib/sdk.ts:562-564 | an email is accepted if and only if it has 1 to 255 characters, no whitespace at either end, no line terminator, and splits as A@B.C with A, B and C non-empty |
| Sdk.LowerAsciiKeepsCharClasses | lib/sdk.ts:563 | ASCII lower-casing moves no character into or out of the whitespace and line-terminator classes |
| Sdk.LowerCasePreservesEmailValidity | src/pages/api/login.ts:23-29 | an accepted email is still accepted after the login flow lower-cases it |
| Sdk.ErrorFromResponse | lib/sdk.ts:26-35 | a non-ok response becomes `FaroeError(status, error)` if and only if its body is an object with a string `error`, and a plain error otherwise |
| Sdk.FetchJson | lib/sdk.ts:38-64 | a failed fetch is a `FaroeFetchError`; success if and only if the response is ok with a JSON body, which is the value; an ok response without a JSON body is the "Invalid JSON" error; a non-ok response is exactly the error `ErrorFromResponse` classifies, so a `FaroeError` carries the response status and the body's `error` code |
| Sdk.FetchNoBody | lib/sdk.ts:12-36 | a failed fetch is a `FaroeFetchError`; success if and only if the response is ok; a non-ok response is exactly the error `ErrorFromResponse` classifies, with the response status and the body's `error` code |
| Sdk.NullOnNotFound | lib/sdk.ts:82-87 | exactly a `NOT_FOUND` provider error becomes null; every other error is rethrown unchanged |
| Sdk.IgnoreNotFound | lib/sdk.ts:187-191 | a delete succeeds if and only if the provider succeeded or answered `NOT_FOUND`; any other error is rethrown unchanged |
| Sdk.ParseUserJson | lib/sdk.ts:566-593 | succeeds if and only if all five fields are present with their types; the record copies them, with `created_at` scaled to milliseconds; otherwise the stated error |
| Sdk.ParseUserEmailVerificationRequestJson | lib/sdk.ts:595-618 | succeeds if and only if the four typed fields are present; both dates are scaled to milliseconds |
| Sdk.ParseEmailUpdateRequestJson | lib/sdk.ts:620-651 | succeeds if and only if the six typed fields are present; both dates are scaled to milliseconds |
| Sdk.ParsePasswordResetRequestJson | lib/sdk.ts:653-676 | succeeds if and only if `id`, `user_id`, `created_at` and `expires_at` are present with their types |
| Sdk.ParseRecoveryCodeJson | lib/sdk.ts:678-686 | succeeds if and only if there is a string `recovery_code`, which is the value |
| Sdk.ParseCreatedPasswordResetRequest | lib/sdk.ts:399-407 | succeeds if and only if there is a string `code` and the reset-request record parses; the value is the pair of the two |
| Sdk.ParseUpdatedEmail | lib/sdk.ts:358-365 | succeeds if and only if there is a string `email`, which is the value |
| Sdk.UserJsonRoundTrip | lib/sdk.ts:566-593 | the body the provider sends for a user with a whole-second date parses back to that user |
| Sdk.EmailUpdateRequestJsonRoundTrip | lib/sdk.ts:620-651 | the body of an email-update request parses back to that request |
| Sdk.PasswordResetRequestJsonRoundTrip | lib/sdk.ts:653-676 | the body of a password-reset request parses back to that request |
| Sdk.CreatedPasswordResetRequestNeedsCode | lib/sdk.ts:399-407 | a body that the reset-request parser accepts but that has no `code` is still refused by `createPasswordResetRequest` |
| Sdk.GetUser | lib/sdk.ts:77-88 | null exactly on a provider `NOT_FOUND`; a body that parses gives that user, a body that does not gives the parser's error, and every other fetch error is rethrown unchanged |
| Sdk.DeleteUser | lib/sdk.ts:184-192 | succeeds exactly when the delete succeeded or the user was not found |
| Sdk.ParseEach | lib/sdk.ts:336-340 | succeeds if and only if every element parses, giving them all in order; otherwise the error of the first element that fails |
| Sdk.GetUserEmailUpdateRequests | lib/sdk.ts:323-341 | null exactly on `NOT_FOUND`, and every other fetch error rethrown unchanged; a non-array body is an error; an array gives a list if and only if every element parses, one request per element in order, and otherwise the error of the first element that fails |
| Sdk.GetUserPasswordResetRequests | lib/sdk.ts:454-472 | null exactly on `NOT_FOUND`, and every other fetch error rethrown unchanged; a non-array body is an error; an array gives a list if and only if every element parses, one request per element in order, and otherwise the error of the first element that fails |
| Sdk.NatToString | lib/sdk.ts:115-119 | a count prints as a non-empty string of decimal digits |
| Sdk.NatToStringRoundTrip | lib/sdk.ts:115-119 | the printed digits read back as the same number |
| Sdk.GetUsersSearchParams | lib/sdk.ts:97-123 | the query always has `sort_by`, `sort_order`, `per_page` and `page`, defaulting to `created_at`, `ascending`, 20 and 1; `email_query` appears exactly when one is given |
| Sdk.ParseUsersPage | lib/sdk.ts:169-181 | a non-array body is an error; an array succeeds if and only if every element parses, giving one user per element in order, and otherwise fails with the error of the first element that fails |
| Sdk.Faroe.Send | lib/sdk.ts:3-10 | every call through the client appends exactly that request to the log |
| Astro.Cookies.Get | src/middleware.ts:6 | the cookie is present exactly when the request carried it, with the value it carried |
| Astro.Cookies.Set | lib/session.ts:57-65 | the response sets exactly that cookie under that name; others are untouched |
| Users.VerifyUsernameInputCharacterised | lib/user.ts:3-5 | a username is accepted if and only if it has 4 to 31 characters and no whitespace at either end |
| Users.WithEmailVerified | lib/user.ts:47-49 | the same ids; that user's flag becomes true; every other row is unchanged; an absent id changes nothing |
| Users.WithEmailAndVerified | lib/user.ts:26-28 | the same ids; that user gets the new email and a true flag; every other row is unchanged |
| Users.VerifiedFlagsKeptTransitive | lib/user.ts:26-49 | no user lost and no verified flag cleared is preserved across a sequence of statements |
| Users.UpdatesKeepVerifiedFlags | lib/user.ts:26-49 | both UPDATEs of the user table only ever set the verified flag |
| Users.WithEmailVerifiedIdempotent | lib/user.ts:47-49 | setting the verified flag twice is setting it once |
| Users.CreateUser | lib/user.ts:7-24 | a successful insert adds exactly one unverified user under a fresh id and returns it; a refused insert is the "Unexpected error" with nothing changed |
| Users.UpdateUserEmailAndSetEmailAsVerified | lib/user.ts:26-28 | the user table becomes the table with that user's email replaced and flag set |
| Users.GetUserFromFaroeId | lib/user.ts:30-45 | null if and only if no row has that provider id; otherwise a row that has it |
| Users.SetUserAsEmailVerified | lib/user.ts:47-49 | the user table becomes the table with that user's flag set |
| Sessions.SessionIdShape | lib/session.ts:9 | every session id is 64 lower-case hexadecimal symbols |
| Sessions.SessionIdsDistinguishDigests | lib/session.ts:85 | two tokens share a session id only if their SHA-256 digests coincide |
| Sessions.GenerateSessionToken | lib/session.ts:77-82 | 20 random bytes become 32 symbols of the lower-case base32 alphabet, their plain base32 encoding |
| Sessions.StoredExpiryRounding | lib/session.ts:40-42 | storing an expiry in seconds loses less than one second and never adds any |
| Sessions.WithoutSession | lib/session.ts:49-51 | exactly that id is removed; every other row is unchanged |
| Sessions.WithoutUserSessions | lib/session.ts:53-55 | exactly the rows of that user are removed; every other row is unchanged |
| Sessions.WithEmailUpdateRequestId | lib/session.ts:101-110 | only the pending request id of that one row changes; an absent row changes nothing |
| Sessions.ValidateSessionUnknown | lib/session.ts:8-21 | an unknown id, or a row without its user, gives the null pair and leaves the table unchanged |
| Sessions.ValidateSessionFailClosed | lib/session.ts:35-38 | from the stored expiry on, the answer is the null pair and the joined row is deleted |
| Sessions.ValidateSessionFound | lib/session.ts:8-47 | a live answer is the row under that id joined to its own user, with unchanged pending id, and it expires after now |
| Sessions.ValidateSessionRenewal | lib/session.ts:39-45 | within the last 15 days the expiry becomes now plus 30 days, in the answer and in the row; otherwise nothing changes |
| Sessions.ValidateSessionNeverShortens | lib/session.ts:35-46 | validation adds no row, never shortens a kept row, and touches no row but its own |
| Sessions.ValidateSessionTwice | lib/session.ts:35-46 | validating again at the same instant leaves the table as the first validation left it, with the same kind of answer and user |
| Sessions.CreatedSessionValidates | lib/session.ts:84-99 | the token just given to `createSession` validates to that session and its user, without renewal, at every instant from its creation until one second before its 15th day, the second the stored expiry can lose |
| Sessions.CreatedSessionExpires | lib/session.ts:84-99 | from 30 days after creation, that session is refused and its row is gone |
| Sessions.RenewedSessionOutlivesOriginal | lib/session.ts:39-45 | a session used in its second half is still live at any later instant up to one second before 30 days after that use, the second the stored expiry can lose |
| Sessions.InvalidatedUserSessionsRejected | lib/session.ts:53-55 | after `invalidateUserSessions(u)` no session of `u` validates |
| Sessions.ValidationSeesEmailUpdateRequestId | lib/session.ts:101-110 | the pending id recorded on a row is what the next validation reports, with the same user and kind of answer |
| Sessions.ValidateSessionToken | lib/session.ts:8-47 | the answer and the new session table are those of validating the token's id |
| Sessions.InvalidateSession | lib/session.ts:49-51 | the session table loses exactly that id |
| Sessions.InvalidateUserSessions | lib/session.ts:53-55 | the session table loses exactly that user's rows |
| Sessions.CreateSession | lib/session.ts:84-99 | with a fresh id, exactly one row is inserted, with that user, pending id and a 30-day expiry, and the session is returned; a taken id is the primary-key failure with nothing changed |
| Sessions.SetSessionFaroeEmailUpdateRequestId | lib/session.ts:101-106 | the table becomes the table with that row's pending id set |
| Sessions.DeleteSessionFaroeEmailUpdateRequestId | lib/session.ts:108-110 | the table becomes the table with that row's pending id cleared |
| Sessions.SetSessionTokenCookie | lib/session.ts:57-65 | the `session` cookie is set to the token with that expiry |
| Sessions.DeleteSessionTokenCookie | lib/session.ts:67-75 | the `session` cookie is cleared with `maxAge: 0` |
| PasswordResetSessions.WithoutPasswordResetSession | lib/password-reset-session.ts:42-44 | exactly that reset id is removed; every other row is unchanged |
| PasswordResetSessions.WithoutUserPasswordResetSessions | lib/password-reset-session.ts:46-48 | exactly that user's reset rows are removed; every other row is unchanged |
| PasswordResetSessions.WithResetSessionEmailVerified | lib/password-reset-session.ts:109-111 | only that row's flag changes, to true; an absent id changes nothing |
| PasswordResetSessions.ResetTableStatementsKeepVerifiedFlags | lib/password-reset-session.ts:42-111 | no statement of the file on the reset table turns a true verified flag back to false |
| PasswordResetSessions.WithResetSessionEmailVerifiedIdempotent | lib/password-reset-session.ts:109-111 | setting the reset flag twice is setting it once |
| PasswordResetSessions.ValidatePasswordResetSessionUnknown | lib/password-reset-session.ts:8-20 | an absent id, or a row without its user, gives the null pair and changes nothing |
| PasswordResetSessions.ValidatePasswordResetSessionFound | lib/password-reset-session.ts:8-40 | a live answer is the stored row, not renewed, joined to its own user, expiring after now, and nothing changes |
| PasswordResetSessions.ExpiredPasswordResetSessionStaysRefused | lib/password-reset-session.ts:35-38 | an expired reset session is refused now and at every later instant, since its row is never deleted |
| PasswordResetSessions.ExpiredPasswordResetSessionDeletesOnlySameId | lib/password-reset-session.ts:35-38 | the expiry DELETE can remove only the ordinary session with the same id, and nothing at all when there is none |
| PasswordResetSessions.CreatedPasswordResetSessionLifetime | lib/password-reset-session.ts:70-90 | a fresh reset session validates, unverified, for its first 10 minutes, and is refused from then on |
| PasswordResetSessions.ValidatePasswordResetSessionToken | lib/password-reset-session.ts:8-40 | the answer and the new ordinary session table are those of validating the token's id; the reset table is not written |
| PasswordResetSessions.InvalidatePasswordResetSession | lib/password-reset-session.ts:42-44 | the reset table loses exactly that id |
| PasswordResetSessions.InvalidatePasswordResetUserSessions | lib/password-reset-session.ts:46-48 | the reset table loses exactly that user's rows |
| PasswordResetSessions.SetPasswordResetSessionTokenCookie | lib/password-reset-session.ts:50-58 | the `password_reset_session` cookie is set to the token with that expiry |
| PasswordResetSessions.DeletePasswordResetSessionTokenCookie | lib/password-reset-session.ts:60-68 | the `password_reset_session` cookie is cleared |
| PasswordResetSessions.CreatePasswordResetSession | lib/password-reset-session.ts:70-90 | with a fresh id, exactly one unverified row is inserted, bound to the request and expiring in 10 minutes; a taken id is the primary-key failure with nothing changed |
| PasswordResetSessions.ValidatePasswordResetSessionRequest | lib/password-reset-session.ts:92-107 | no cookie gives the null pair with nothing touched; otherwise the token's validation, with the cookie cleared on a null answer and re-set with the same token and stored expiry otherwise |
| PasswordResetSessions.SetPasswordResetSessionAsEmailVerified | lib/password-reset-session.ts:109-111 | the reset table becomes the table with that row's flag set |
| Middleware.OnRequest | src/middleware.ts:5-23 | without a cookie, null locals and nothing touched; otherwise the locals are the validation's answer, consistent and live, and the cookie is re-set with the possibly renewed expiry or cleared |
| Logout.Post | src/pages/api/logout.ts:5-16 | 401 with nothing changed without a session; otherwise exactly the current session is deleted, its cookie cleared, 204 |
| Login.VerifyUserPasswordErrorStatus | src/pages/api/login.ts:45-60 | 400 exactly for `INCORRECT_PASSWORD` and `TOO_MANY_REQUESTS`, 500 for anything else |
| Login.LoginIgnoresEmailCase | src/pages/api/login.ts:23-36 | two spellings of an email that differ only in ASCII case reach the same user |
| Login.Post | src/pages/api/login.ts:9-67 | any failed guard is 400 before the provider is asked; a refusal creates no session; success adds exactly one session for the user found, with no pending id, and sets its cookie, 204 |
| Signup.SignupAcceptsThreeLetters | src/pages/api/signup.ts:28 | a three-letter name passes signup but not `verifyUsernameInput` |
| Signup.SignupAcceptsSurroundingSpaces | src/pages/api/signup.ts:28 | a name with surrounding spaces passes signup but not `verifyUsernameInput` |
| Signup.SignupRefusesUnderscores | src/pages/api/signup.ts:28 | a name of underscores fails signup but passes `verifyUsernameInput` |
| Signup.CreateUserErrorStatus | src/pages/api/signup.ts:47-66 | 400 exactly for `EMAIL_ALREADY_USED`, `WEAK_PASSWORD` and `TOO_MANY_REQUESTS`, 500 otherwise |
| Signup.CreateAccount | src/pages/api/signup.ts:44-85 | a provider error leaves no user; a refused insert asks the provider to delete the account, 500; otherwise one unverified user with the email as given, one session with no pending id and its cookie, 204 |
| Signup.Post | src/pages/api/signup.ts:11-86 | any failed guard is 400 with no provider request and no user; otherwise the account creation above; the user table invariant is kept |
| UpdatePassword.UpdateUserPasswordErrorStatus | src/pages/api/update-password.ts:42-61 | 400 exactly for `INCORRECT_PASSWORD`, `WEAK_PASSWORD` and `TOO_MANY_REQUESTS`, 500 otherwise |
| UpdatePassword.PasswordUpdateLeavesOneSession | src/pages/api/update-password.ts:63-66 | afterwards the user's only session is the new one, with no pending id, and other users' sessions are as before |
| UpdatePassword.Post | src/pages/api/update-password.ts:8-70 | without a user or with a malformed password, 400 and nothing sent; a provider error keeps every session; success replaces all the user's sessions by one new session and sets its cookie |
| ForgotPassword.CreatePasswordResetRequestErrorStatus | src/pages/api/forgot-password.ts:39-53 | 400 exactly for `USER_NOT_EXISTS` and `TOO_MANY_REQUESTS`, 500 otherwise |
| ForgotPassword.Post | src/pages/api/forgot-password.ts:11-63 | a missing field is 400, an invalid email the default 200, an unknown user 400, all with nothing sent; success adds one unverified reset session for the user, bound to the request, and sets its cookie; earlier reset sessions stay |
| VerifyPasswordResetEmail.VerifyPasswordResetRequestEmailErrorStatus | src/pages/api/verify-password-reset-email.ts:44-65 | 400 exactly for `NOT_FOUND`, `INCORRECT_CODE` and `TOO_MANY_REQUESTS`, 500 otherwise |
| VerifyPasswordResetEmail.Post | src/pages/api/verify-password-reset-email.ts:13-70 | no reset session is 400, an already verified one 403, a bad code 400; `NOT_FOUND` deletes the reset session and clears its cookie; success sets only its flag; no flag is ever cleared |
| ResetPassword.ResetUserPasswordErrorStatus | src/pages/api/reset-password.ts:46-65 | 400 for `INVALID_REQUEST_ID` and `WEAK_PASSWORD`, 429 for `TOO_MANY_REQUESTS`, 500 otherwise |
| ResetPassword.CompleteReset | src/pages/api/reset-password.ts:44-74 | a provider error changes nothing; success verifies the user, consumes the reset session and its cookie, and adds one new session with its cookie |
| ResetPassword.Post | src/pages/api/reset-password.ts:14-75 | 204 only for a verified reset session; an unverified one is 403 and a missing or malformed password 400, with nothing sent; otherwise the completion above; other sessions are kept |
| SendEmailUpdateCode.CreateUserEmailUpdateRequestErrorStatus | src/pages/api/send-email-update-code.ts:38-52 | 400 exactly for `EMAIL_ALREADY_USED`, 429 exactly for `TOO_MANY_REQUESTS`, 500 otherwise |
| SendEmailUpdateCode.Post | src/pages/api/send-email-update-code.ts:9-61 | signed out is 401, a missing or invalid email 400, with nothing sent; a provider error keeps the pending id; success records the new request id on the current session only |
| UpdateEmail.VerifyNewUserEmailErrorStatus | src/pages/api/update-email.ts:43-62 | 400 exactly for `INVALID_REQUEST_ID`, `INCORRECT_CODE` and `TOO_MANY_REQUESTS`, 500 otherwise |
| UpdateEmail.Post | src/pages/api/update-email.ts:9-68 | signed out is 400, an unverified user or no pending request 403, a bad code 400; a provider error changes nothing; success gives the user the provider's email, verified, and clears only this session's pending id |
| VerifyEmail.VerifyUserEmailErrorStatus | src/pages/api/verify-email.ts:46-59 | 400 exactly for `INCORRECT_CODE` and `TOO_MANY_REQUESTS`, 500 otherwise |
| VerifyEmail.Post | src/pages/api/verify-email.ts:8-64 | signed out is 400, an already verified user 403, a bad code 400; `NOT_ALLOWED` requests a new code, 400, or 500 if that fails; only a confirmed code sets the user's flag, 204 |

## Left out

- The HTTP exchange with the identity provider (`fetch`, headers, `async`) is not modelled. A response is a `FetchOutcome` value, and each provider call a handler makes is an outcome parameter. The client keeps only the log of the requests sent.
- Provider calls that lib/sdk.ts does not contain are outcomes only. These are `createUserPasswordResetRequest`, `verifyUserPassword` and `verifyNewUserEmail`, used by the forgot-password, login and update-email handlers. So is `getUserFromEmail`, which is not part of this model: it is a parameter of type `string -> Option<User>`.
- The model has a single provider error type, `Sdk.SdkError`, and every handler's `instanceof FaroeError` test is read as the test of its `FaroeError` case. The source imports `FaroeError` from two modules: src/pages/api/reset-password.ts and src/pages/api/verify-password-reset-email.ts take it from `@lib/sdk`, the other handlers from `@faroe/sdk`. The client `faroe` comes from `lib/faroe.ts`, which is not part of this model, so which class its errors are instances of cannot be read. If they are not instances of the class a handler imports, that handler never takes its coded branches: every provider error there would be a 500, and the `NOT_FOUND` clean-up of the verify-password-reset-email handler could not run. The model does not capture that case.
- The input validators follow lib/sdk.ts:558-564 in every handler, but most handlers import them from elsewhere. The login and signup handlers take both `verifyEmailInput` and `verifyPasswordInput` from the `@faroe/sdk` package, the update-password handler takes `verifyPasswordInput` from it, and the forgot-password and send-email-update-code handlers take `verifyEmailInput` from it (src/pages/api/login.ts:2, src/pages/api/signup.ts:2, src/pages/api/update-password.ts:2, src/pages/api/forgot-password.ts:1, src/pages/api/send-email-update-code.ts:1). Only src/pages/api/reset-password.ts:2 takes `verifyPasswordInput` from `@lib/sdk`. That package is not part of this model, so `Sdk.VerifyEmailInput` and `Sdk.VerifyPasswordInput` stand in for its validators on the assumption that they test the same thing.
- SHA-256 itself is a parameter: any function producing 32 bytes. `crypto.getRandomValues` is replaced by the 20 bytes it would produce.
- The unseen `./db` module and its SQL are replaced by map operations. The schema's constraints are not part of this model, so `Users.CreateUser` receives whether the INSERT succeeds as the flag `inserted`. A session INSERT fails exactly when its primary key is taken. An error the handlers do not catch is a 500 response.
- Request-body parsing is not modelled: the fields arrive as `Option<string>`. A body that is not JSON, which makes `request.json()` throw, is not modelled either.
- Cookie attributes (`httpOnly`, `path`, `sameSite`, and `secure` from the build environment) are left off. A cookie is a value with an expiry, or cleared with `maxAge: 0`. `Astro.Cookies.Get` reads only the cookies the request carried, not those set earlier in the same response; no flow reads a cookie it has set.
- The TOTP, recovery-code and two-factor operations of lib/sdk.ts are left out, along with `parseUserTOTPCredentialJSON` and the base64 it relies on. No flow in the core uses them.
- Sdk.ParseUsersPage: the user listing's pagination headers are not parsed, because they depend on `Number.parseInt` and JavaScript number semantics. Only the body loop is modelled.
- Sdk.GetUsersSearchParams: the query is modelled as a map from parameter names to values. The order of the names in the query string is not modelled.
- src/pages/api/send-email-verification-code.ts is not modelled: it guards one provider call and changes no local state.
- Email delivery through `console.log` is not modelled, and neither are concurrent requests racing on the same row. Each request is one sequential step.
- JSON numbers are integers in this model. JavaScript's floating-point numbers, and the fractional milliseconds they allow, are not represented.
- `String.length` counts UTF-16 code units, but the model counts characters (Unicode scalar values). The two differ only for characters outside the Basic Multilingual Plane.
- Encoding.ToLowerAscii: `toLowerCase` is modelled on ASCII letters only. Full Unicode case mapping is not represented.
- `Date.now()` is read once per call, as the integer `now`. The source may read it up to three times during one validation.
- The provider's answer to `deleteUser` in the signup compensation is not modelled. Only the request is recorded, and the handler answers 500 whatever the provider answers.
