/** Password-reset sessions (lib/password-reset-session.ts): stored under
    the same digest of a token as ordinary sessions, but living 10 minutes
    with no renewal, bound to the identity provider's reset request, and
    carrying a flag that records that the user proved control of the email
    address.

    On expiry the code issues its DELETE against the ordinary `session`
    table (lib/password-reset-session.ts:36), not against
    `password_reset_session`; the model does the same, so an expired reset
    session stays stored and is refused every time it is presented. */
module PasswordResetSessions {
  import opened Wrappers
  import opened Encoding
  import opened Db
  import opened Users
  import opened Astro
  import opened Sessions

  const PASSWORD_RESET_SESSION_LIFETIME_MS: int := 1000 * 60 * 10

  const PASSWORD_RESET_SESSION_COOKIE: string := "password_reset_session"

  datatype PasswordResetSession =
    PasswordResetSession(id: string, faroeRequestId: string, userId: int, expiresAt: int, emailVerified: bool)

  datatype PasswordResetSessionValidationResult =
    | ResetSessionAndUser(session: PasswordResetSession, user: User)
    | NoResetSession

  function ResetSessionFromRow(id: string, row: PasswordResetSessionRow): PasswordResetSession {
    PasswordResetSession(id, row.faroeRequestId, row.userId, FromStoredSeconds(row.expiresAt), row.emailVerified)
  }

  /** The row `createPasswordResetSession` inserts at time `now`; the INSERT
      leaves `email_verified` to its default, false. */
  function NewPasswordResetSessionRow(faroeRequestId: string, userId: int, now: int): PasswordResetSessionRow {
    PasswordResetSessionRow(faroeRequestId, userId, ToStoredSeconds(now + PASSWORD_RESET_SESSION_LIFETIME_MS), false)
  }

  // ---------------------------------------------------------------------
  // The tables after each statement
  // ---------------------------------------------------------------------

  /** `DELETE FROM password_reset_session WHERE id = ?`. */
  function WithoutPasswordResetSession(resets: map<string, PasswordResetSessionRow>, id: string)
    : (r: map<string, PasswordResetSessionRow>)
    ensures r.Keys == resets.Keys - {id}
    ensures forall k :: k in r ==> r[k] == resets[k]
  {
    resets - {id}
  }

  /** `DELETE FROM password_reset_session WHERE user_id = ?`. */
  function WithoutUserPasswordResetSessions(resets: map<string, PasswordResetSessionRow>, userId: int)
    : (r: map<string, PasswordResetSessionRow>)
    ensures forall k :: k in r <==> k in resets && resets[k].userId != userId
    ensures forall k :: k in r ==> r[k] == resets[k]
  {
    map k | k in resets && resets[k].userId != userId :: resets[k]
  }

  /** `UPDATE password_reset_session SET email_verified = 1 WHERE id = ?`. */
  function WithResetSessionEmailVerified(resets: map<string, PasswordResetSessionRow>, id: string)
    : (r: map<string, PasswordResetSessionRow>)
    ensures r.Keys == resets.Keys
    ensures id in resets ==> r[id] == resets[id].(emailVerified := true)
    ensures forall k :: k in resets && k != id ==> r[k] == resets[k]
  {
    if id in resets then resets[id := resets[id].(emailVerified := true)] else resets
  }

  /** No reset row's verified flag goes from true back to false. */
  predicate ResetVerifiedFlagsKept(before: map<string, PasswordResetSessionRow>, after: map<string, PasswordResetSessionRow>) {
    forall k :: k in before && k in after && before[k].emailVerified ==> after[k].emailVerified
  }

  /** Every statement of the file on the reset table keeps the verified
      flags: the only UPDATE sets the flag, the others insert or delete. */
  lemma ResetTableStatementsKeepVerifiedFlags(
    resets: map<string, PasswordResetSessionRow>, id: string, userId: int, row: PasswordResetSessionRow)
    ensures ResetVerifiedFlagsKept(resets, WithResetSessionEmailVerified(resets, id))
    ensures ResetVerifiedFlagsKept(resets, WithoutPasswordResetSession(resets, id))
    ensures ResetVerifiedFlagsKept(resets, WithoutUserPasswordResetSessions(resets, userId))
    ensures id !in resets ==> ResetVerifiedFlagsKept(resets, resets[id := row])
  {
  }

  /** Setting the flag is idempotent. */
  lemma WithResetSessionEmailVerifiedIdempotent(resets: map<string, PasswordResetSessionRow>, id: string)
    ensures WithResetSessionEmailVerified(WithResetSessionEmailVerified(resets, id), id) == WithResetSessionEmailVerified(resets, id)
  {
  }

  /** What `validatePasswordResetSessionToken` answers for the id `id` at
      time `now`, and the ordinary session table it leaves behind; the reset
      table itself is never written. */
  function ValidatePasswordResetSession(
    resets: map<string, PasswordResetSessionRow>, sessions: map<string, SessionRow>,
    users: map<int, UserRow>, id: string, now: int)
    : (PasswordResetSessionValidationResult, map<string, SessionRow>)
  {
    if id !in resets || resets[id].userId !in users then (NoResetSession, sessions)
    else
      var row := resets[id];
      var session := ResetSessionFromRow(id, row);
      var user := UserFromRow(row.userId, users[row.userId]);
      if now >= session.expiresAt then (NoResetSession, sessions - {id})
      else (ResetSessionAndUser(session, user), sessions)
  }

  // ---------------------------------------------------------------------
  // Properties of validation
  // ---------------------------------------------------------------------

  /** An absent id, or a row whose user is missing, gives the null pair and
      changes nothing. */
  lemma ValidatePasswordResetSessionUnknown(
    resets: map<string, PasswordResetSessionRow>, sessions: map<string, SessionRow>,
    users: map<int, UserRow>, id: string, now: int)
    requires id !in resets || resets[id].userId !in users
    ensures ValidatePasswordResetSession(resets, sessions, users, id, now) == (NoResetSession, sessions)
  {
  }

  /** A live answer is the stored row, unrenewed, joined to its own user. */
  lemma ValidatePasswordResetSessionFound(
    resets: map<string, PasswordResetSessionRow>, sessions: map<string, SessionRow>,
    users: map<int, UserRow>, id: string, now: int)
    requires ValidatePasswordResetSession(resets, sessions, users, id, now).0.ResetSessionAndUser?
    ensures var (r, after) := ValidatePasswordResetSession(resets, sessions, users, id, now);
      && id in resets && resets[id].userId in users
      && r.session == ResetSessionFromRow(id, resets[id])
      && r.session.userId == r.user.id
      && r.user == UserFromRow(r.user.id, users[r.user.id])
      && r.session.expiresAt > now
      && after == sessions
  {
  }

  /** An expired reset session is refused now, and, since the row stays in
      the reset table, it is refused again at any later instant, whatever the
      ordinary session table holds by then. */
  lemma ExpiredPasswordResetSessionStaysRefused(
    resets: map<string, PasswordResetSessionRow>, sessions: map<string, SessionRow>,
    laterSessions: map<string, SessionRow>, users: map<int, UserRow>, id: string, now: int, later: int)
    requires id in resets && now >= FromStoredSeconds(resets[id].expiresAt)
    requires later >= now
    ensures ValidatePasswordResetSession(resets, sessions, users, id, now).0 == NoResetSession
    ensures ValidatePasswordResetSession(resets, laterSessions, users, id, later).0 == NoResetSession
  {
  }

  /** The DELETE the expired branch issues can remove only the ordinary
      session stored under the same id, so every other ordinary session is
      kept, and with no such session nothing is removed at all. */
  lemma ExpiredPasswordResetSessionDeletesOnlySameId(
    resets: map<string, PasswordResetSessionRow>, sessions: map<string, SessionRow>,
    users: map<int, UserRow>, id: string, now: int)
    ensures var after := ValidatePasswordResetSession(resets, sessions, users, id, now).1;
      && after.Keys <= sessions.Keys
      && (forall k :: k in sessions && k != id ==> k in after && after[k] == sessions[k])
      && (id !in sessions ==> after == sessions)
  {
  }

  /** A reset session validates as created for its first 10 minutes (less
      the second lost to storing whole seconds), and is refused from then
      on. */
  lemma CreatedPasswordResetSessionLifetime(
    resets: map<string, PasswordResetSessionRow>, sessions: map<string, SessionRow>,
    users: map<int, UserRow>, id: string, faroeRequestId: string, userId: int, created: int, now: int)
    requires userId in users
    ensures var table := resets[id := NewPasswordResetSessionRow(faroeRequestId, userId, created)];
      var r := ValidatePasswordResetSession(table, sessions, users, id, now).0;
      && (created <= now && now + 1000 <= created + PASSWORD_RESET_SESSION_LIFETIME_MS ==>
            r == ResetSessionAndUser(ResetSessionFromRow(id, table[id]), UserFromRow(userId, users[userId]))
            && !r.session.emailVerified)
      && (now >= created + PASSWORD_RESET_SESSION_LIFETIME_MS ==> r == NoResetSession)
  {
    StoredExpiryRounding(created + PASSWORD_RESET_SESSION_LIFETIME_MS);
  }

  // ---------------------------------------------------------------------
  // The operations
  // ---------------------------------------------------------------------

  /** `validatePasswordResetSessionToken`. */
  method ValidatePasswordResetSessionToken(db: Database, sha256: Sha256, token: string, now: int)
    returns (result: PasswordResetSessionValidationResult)
    modifies db`sessions
    ensures (result, db.sessions) ==
      ValidatePasswordResetSession(db.passwordResetSessions, old(db.sessions), db.users, SessionIdOf(sha256, token), now)
  {
    var sessionId := SessionIdOf(sha256, token);
    if sessionId !in db.passwordResetSessions || db.passwordResetSessions[sessionId].userId !in db.users {
      return NoResetSession;
    }
    var row := db.passwordResetSessions[sessionId];
    var session := ResetSessionFromRow(sessionId, row);
    var user := UserFromRow(row.userId, db.users[row.userId]);
    if now >= session.expiresAt {
      db.sessions := db.sessions - {session.id};
      return NoResetSession;
    }
    return ResetSessionAndUser(session, user);
  }

  method InvalidatePasswordResetSession(db: Database, sessionId: string)
    modifies db`passwordResetSessions
    ensures db.passwordResetSessions == WithoutPasswordResetSession(old(db.passwordResetSessions), sessionId)
  {
    db.passwordResetSessions := db.passwordResetSessions - {sessionId};
  }

  method InvalidatePasswordResetUserSessions(db: Database, userId: int)
    modifies db`passwordResetSessions
    ensures db.passwordResetSessions == WithoutUserPasswordResetSessions(old(db.passwordResetSessions), userId)
  {
    db.passwordResetSessions :=
      map k | k in db.passwordResetSessions && db.passwordResetSessions[k].userId != userId :: db.passwordResetSessions[k];
  }

  method SetPasswordResetSessionTokenCookie(cookies: Cookies, token: string, expiresAt: int)
    modifies cookies`outgoing
    ensures cookies.outgoing == old(cookies.outgoing)[PASSWORD_RESET_SESSION_COOKIE := SessionTokenCookie(token, expiresAt)]
  {
    cookies.Set(PASSWORD_RESET_SESSION_COOKIE, SessionTokenCookie(token, expiresAt));
  }

  method DeletePasswordResetSessionTokenCookie(cookies: Cookies)
    modifies cookies`outgoing
    ensures cookies.outgoing == old(cookies.outgoing)[PASSWORD_RESET_SESSION_COOKIE := CLEARED_COOKIE]
  {
    cookies.Set(PASSWORD_RESET_SESSION_COOKIE, CLEARED_COOKIE);
  }

  /** `createPasswordResetSession`: an unverified row expiring 10 minutes
      from `now`, or the primary-key failure when the id is taken. */
  method CreatePasswordResetSession(
    db: Database, sha256: Sha256, token: string, userId: int, faroeRequestId: string, now: int)
    returns (r: Result<PasswordResetSession, string>)
    modifies db`passwordResetSessions
    ensures var id := SessionIdOf(sha256, token);
      && (r.Success? <==> id !in old(db.passwordResetSessions))
      && (r.Success? ==>
            && r.value == PasswordResetSession(id, faroeRequestId, userId, now + PASSWORD_RESET_SESSION_LIFETIME_MS, false)
            && db.passwordResetSessions ==
                 old(db.passwordResetSessions)[id := NewPasswordResetSessionRow(faroeRequestId, userId, now)])
      && (r.Failure? ==> r.error == DUPLICATE_KEY && db.passwordResetSessions == old(db.passwordResetSessions))
  {
    var sessionId := SessionIdOf(sha256, token);
    var session := PasswordResetSession(sessionId, faroeRequestId, userId, now + PASSWORD_RESET_SESSION_LIFETIME_MS, false);
    if sessionId in db.passwordResetSessions {
      return Failure(DUPLICATE_KEY);
    }
    db.passwordResetSessions := db.passwordResetSessions[sessionId :=
      PasswordResetSessionRow(faroeRequestId, userId, ToStoredSeconds(session.expiresAt), false)];
    return Success(session);
  }

  /** The cookie `validatePasswordResetSessionRequest` answers with: the
      same token until the stored expiry, or the cleared cookie. */
  function ResetCookieAfterValidation(result: PasswordResetSessionValidationResult, token: string): Cookie {
    if result.NoResetSession? then CLEARED_COOKIE else SessionTokenCookie(token, result.session.expiresAt)
  }

  /** What `validatePasswordResetSessionRequest` answers for a request that
      carried the cookies `incoming`, the ordinary session table it leaves,
      and the reset cookie it sets (`None` when it sets none). */
  function ValidatePasswordResetRequest(
    resets: map<string, PasswordResetSessionRow>, sessions: map<string, SessionRow>,
    users: map<int, UserRow>, incoming: map<string, string>, sha256: Sha256, now: int)
    : (PasswordResetSessionValidationResult, map<string, SessionRow>, Option<Cookie>)
  {
    if PASSWORD_RESET_SESSION_COOKIE !in incoming then (NoResetSession, sessions, None)
    else
      var token := incoming[PASSWORD_RESET_SESSION_COOKIE];
      var (result, after) := ValidatePasswordResetSession(resets, sessions, users, SessionIdOf(sha256, token), now);
      (result, after, Some(ResetCookieAfterValidation(result, token)))
  }

  /** The outgoing cookies after an optional `cookies.set`. */
  function WithCookie(outgoing: map<string, Cookie>, name: string, cookie: Option<Cookie>): map<string, Cookie> {
    if cookie.Some? then outgoing[name := cookie.value] else outgoing
  }

  /** `validatePasswordResetSessionRequest`: with no reset cookie, the null
      pair and nothing touched; otherwise the token's validation, with the
      cookie cleared on a null answer and re-set otherwise. */
  method ValidatePasswordResetSessionRequest(db: Database, cookies: Cookies, sha256: Sha256, now: int)
    returns (result: PasswordResetSessionValidationResult)
    modifies db`sessions, cookies`outgoing
    ensures PASSWORD_RESET_SESSION_COOKIE !in cookies.incoming ==>
      && result == NoResetSession
      && db.sessions == old(db.sessions)
      && cookies.outgoing == old(cookies.outgoing)
    ensures PASSWORD_RESET_SESSION_COOKIE in cookies.incoming ==>
      var token := cookies.incoming[PASSWORD_RESET_SESSION_COOKIE];
      && (result, db.sessions) ==
           ValidatePasswordResetSession(db.passwordResetSessions, old(db.sessions), db.users, SessionIdOf(sha256, token), now)
      && cookies.outgoing == old(cookies.outgoing)[PASSWORD_RESET_SESSION_COOKIE := ResetCookieAfterValidation(result, token)]
    ensures var (expected, after, cookie) :=
        ValidatePasswordResetRequest(db.passwordResetSessions, old(db.sessions), db.users, cookies.incoming, sha256, now);
      && result == expected && db.sessions == after
      && cookies.outgoing == WithCookie(old(cookies.outgoing), PASSWORD_RESET_SESSION_COOKIE, cookie)
  {
    var sessionToken := cookies.Get(PASSWORD_RESET_SESSION_COOKIE);
    if sessionToken.None? {
      return NoResetSession;
    }
    result := ValidatePasswordResetSessionToken(db, sha256, sessionToken.value, now);
    if result.NoResetSession? {
      DeletePasswordResetSessionTokenCookie(cookies);
    } else {
      SetPasswordResetSessionTokenCookie(cookies, sessionToken.value, result.session.expiresAt);
    }
  }

  method SetPasswordResetSessionAsEmailVerified(db: Database, sessionId: string)
    modifies db`passwordResetSessions
    ensures db.passwordResetSessions == WithResetSessionEmailVerified(old(db.passwordResetSessions), sessionId)
  {
    if sessionId in db.passwordResetSessions {
      db.passwordResetSessions := db.passwordResetSessions[sessionId :=
        db.passwordResetSessions[sessionId].(emailVerified := true)];
    }
  }
}
