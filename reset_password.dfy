/** `POST /api/reset-password` (src/pages/api/reset-password.ts). */
module ResetPassword {
  import opened Wrappers
  import opened Encoding
  import opened Sdk
  import opened Db
  import opened Users
  import opened Astro
  import opened Sessions
  import opened PasswordResetSessions

  /** The catch block around `faroe.resetUserPassword`. */
  function ResetUserPasswordErrorStatus(e: SdkError): (status: int)
    ensures status == 400 <==> IsFaroeCode(e, "INVALID_REQUEST_ID") || IsFaroeCode(e, "WEAK_PASSWORD")
    ensures status == 429 <==> IsFaroeCode(e, "TOO_MANY_REQUESTS")
    ensures status != 400 && status != 429 ==> status == 500
  {
    if IsFaroeCode(e, "INVALID_REQUEST_ID") then 400
    else if IsFaroeCode(e, "WEAK_PASSWORD") then 400
    else if IsFaroeCode(e, "TOO_MANY_REQUESTS") then 429
    else 500
  }

  /** Everything after the guards: the provider resets the password, then
      the user is marked verified, the reset session is consumed with its
      cookie, and a fresh ordinary session is created and its cookie set. */
  method CompleteReset(
    db: Database, cookies: Cookies, faroe: Faroe, sha256: Sha256, now: int, randomBytes: seq<byte>,
    session: PasswordResetSession, user: User, password: string, resetUserPassword: Result<(), SdkError>)
    returns (status: int)
    requires |randomBytes| == 20
    modifies db`users, db`sessions, db`passwordResetSessions, cookies`outgoing, faroe
    ensures status in {204, 400, 429, 500}
    ensures VerifiedFlagsKept(old(db.users), db.users)
    ensures faroe.sent == old(faroe.sent) + [ResetUserPasswordRequest(session.faroeRequestId, password)]
    ensures resetUserPassword.Failure? ==>
      && status == ResetUserPasswordErrorStatus(resetUserPassword.error)
      && db.users == old(db.users) && db.sessions == old(db.sessions)
      && db.passwordResetSessions == old(db.passwordResetSessions) && cookies.outgoing == old(cookies.outgoing)
    ensures resetUserPassword.Success? ==>
      && db.users == WithEmailVerified(old(db.users), user.id)
      && db.passwordResetSessions == WithoutPasswordResetSession(old(db.passwordResetSessions), session.id)
    ensures var token := GenerateSessionToken(randomBytes);
      var id := SessionIdOf(sha256, token);
      && (resetUserPassword.Success? && id in old(db.sessions) ==>
            && status == 500 && db.sessions == old(db.sessions)
            && cookies.outgoing == old(cookies.outgoing)[PASSWORD_RESET_SESSION_COOKIE := CLEARED_COOKIE])
      && (resetUserPassword.Success? && id !in old(db.sessions) ==>
            && status == 204
            && db.sessions == old(db.sessions)[id := NewSessionRow(user.id, None, now)]
            && cookies.outgoing == old(cookies.outgoing)[PASSWORD_RESET_SESSION_COOKIE := CLEARED_COOKIE]
                                                       [SESSION_COOKIE := SessionTokenCookie(token, now + SESSION_LIFETIME_MS)])
  {
    faroe.Send(ResetUserPasswordRequest(session.faroeRequestId, password));
    if resetUserPassword.Failure? {
      return ResetUserPasswordErrorStatus(resetUserPassword.error);
    }

    SetUserAsEmailVerified(db, user.id);
    InvalidatePasswordResetSession(db, session.id);
    DeletePasswordResetSessionTokenCookie(cookies);

    var sessionToken := GenerateSessionToken(randomBytes);
    var created := CreateSession(db, sha256, sessionToken, user.id, None, now);
    if created.Failure? {
      return 500;
    }
    SetSessionTokenCookie(cookies, sessionToken, created.value.expiresAt);
    return 204;
  }

  /** Completes a password reset. Only a reset session whose email was
      verified can reach the provider (403 otherwise, before the body is
      read); after the provider accepts, the user is marked verified, the
      reset session is consumed with its cookie, and a fresh ordinary
      session is created and its cookie set. The user's other sessions are
      kept. */
  method Post(
    db: Database, cookies: Cookies, faroe: Faroe, sha256: Sha256, now: int, randomBytes: seq<byte>,
    passwordField: Option<string>, resetUserPassword: Result<(), SdkError>)
    returns (status: int)
    requires |randomBytes| == 20
    modifies db`users, db`sessions, db`passwordResetSessions, cookies`outgoing, faroe
    ensures status in {204, 400, 403, 429, 500}
    ensures VerifiedFlagsKept(old(db.users), db.users)
    ensures var (validation, _, _) := ValidatePasswordResetRequest(
        old(db.passwordResetSessions), old(db.sessions), old(db.users), cookies.incoming, sha256, now);
      status == 204 ==> validation.ResetSessionAndUser? && validation.session.emailVerified
    ensures var (validation, sessionsAfter, resetCookie) := ValidatePasswordResetRequest(
        old(db.passwordResetSessions), old(db.sessions), old(db.users), cookies.incoming, sha256, now);
      validation.NoResetSession? || !validation.session.emailVerified
      || passwordField.None? || !VerifyPasswordInput(passwordField.value) ==>
        && status == (if validation.ResetSessionAndUser? && !validation.session.emailVerified then 403 else 400)
        && faroe.sent == old(faroe.sent)
        && db.users == old(db.users) && db.sessions == sessionsAfter
        && db.passwordResetSessions == old(db.passwordResetSessions)
        && cookies.outgoing == WithCookie(old(cookies.outgoing), PASSWORD_RESET_SESSION_COOKIE, resetCookie)
    ensures var (validation, sessionsAfter, resetCookie) := ValidatePasswordResetRequest(
        old(db.passwordResetSessions), old(db.sessions), old(db.users), cookies.incoming, sha256, now);
      validation.ResetSessionAndUser? && validation.session.emailVerified
      && passwordField.Some? && VerifyPasswordInput(passwordField.value) ==>
        var session := validation.session;
        var user := validation.user;
        var token := GenerateSessionToken(randomBytes);
        var id := SessionIdOf(sha256, token);
        var validated := WithCookie(old(cookies.outgoing), PASSWORD_RESET_SESSION_COOKIE, resetCookie);
        && faroe.sent == old(faroe.sent) + [ResetUserPasswordRequest(session.faroeRequestId, passwordField.value)]
        && (resetUserPassword.Failure? ==>
              && status == ResetUserPasswordErrorStatus(resetUserPassword.error)
              && db.users == old(db.users) && db.sessions == sessionsAfter
              && db.passwordResetSessions == old(db.passwordResetSessions) && cookies.outgoing == validated)
        && (resetUserPassword.Success? ==>
              && db.users == WithEmailVerified(old(db.users), user.id)
              && db.passwordResetSessions == WithoutPasswordResetSession(old(db.passwordResetSessions), session.id))
        && (resetUserPassword.Success? && id in sessionsAfter ==>
              && status == 500 && db.sessions == sessionsAfter
              && cookies.outgoing == validated[PASSWORD_RESET_SESSION_COOKIE := CLEARED_COOKIE])
        && (resetUserPassword.Success? && id !in sessionsAfter ==>
              && status == 204
              && db.sessions == sessionsAfter[id := NewSessionRow(user.id, None, now)]
              && cookies.outgoing == validated[PASSWORD_RESET_SESSION_COOKIE := CLEARED_COOKIE]
                                              [SESSION_COOKIE := SessionTokenCookie(token, now + SESSION_LIFETIME_MS)])
  {
    ghost var expected := ValidatePasswordResetRequest(
      db.passwordResetSessions, db.sessions, db.users, cookies.incoming, sha256, now);
    ghost var validated := WithCookie(cookies.outgoing, PASSWORD_RESET_SESSION_COOKIE, expected.2);
    var validation := ValidatePasswordResetSessionRequest(db, cookies, sha256, now);
    assert validation == expected.0 && db.sessions == expected.1 && cookies.outgoing == validated;
    if validation.NoResetSession? {
      return 400;
    }
    var passwordResetSession := validation.session;
    var user := validation.user;
    if !passwordResetSession.emailVerified {
      return 403;
    }
    if passwordField.None? {
      return 400;
    }
    var password := passwordField.value;
    if !VerifyPasswordInput(password) {
      return 400;
    }

    status := CompleteReset(db, cookies, faroe, sha256, now, randomBytes,
      passwordResetSession, user, password, resetUserPassword);
  }
}
