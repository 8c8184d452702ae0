/** `POST /api/update-password` (src/pages/api/update-password.ts). */
module UpdatePassword {
  import opened Wrappers
  import opened Encoding
  import opened Sdk
  import opened Db
  import opened Users
  import opened Astro
  import opened Sessions
  import opened Middleware

  /** The catch block around `faroe.updateUserPassword`. */
  function UpdateUserPasswordErrorStatus(e: SdkError): (status: int)
    ensures status == 400 <==>
      IsFaroeCode(e, "INCORRECT_PASSWORD") || IsFaroeCode(e, "WEAK_PASSWORD") || IsFaroeCode(e, "TOO_MANY_REQUESTS")
    ensures status != 400 ==> status == 500
  {
    if IsFaroeCode(e, "INCORRECT_PASSWORD") then 400
    else if IsFaroeCode(e, "WEAK_PASSWORD") then 400
    else if IsFaroeCode(e, "TOO_MANY_REQUESTS") then 400
    else 500
  }

  /** The table after the password change: every session of the user is
      gone and the new one is added. */
  function SessionsAfterPasswordUpdate(
    sessions: map<string, SessionRow>, userId: int, newId: string, now: int): map<string, SessionRow>
  {
    WithoutUserSessions(sessions, userId)[newId := NewSessionRow(userId, None, now)]
  }

  /** Invalidate-all-then-create-one: afterwards the user's only session is
      the new one, and every other user's sessions are exactly as before. */
  lemma PasswordUpdateLeavesOneSession(sessions: map<string, SessionRow>, userId: int, newId: string, now: int)
    ensures var after := SessionsAfterPasswordUpdate(sessions, userId, newId, now);
      && (forall k :: k in after && after[k].userId == userId <==> k == newId)
      && after[newId].faroeEmailUpdateRequestId == None
      && (forall k :: k in sessions && sessions[k].userId != userId && k != newId ==> k in after && after[k] == sessions[k])
  {
  }

  /** Both fields present and both passwords well formed. */
  predicate PasswordsAccepted(passwordField: Option<string>, newPasswordField: Option<string>) {
    && passwordField.Some? && newPasswordField.Some?
    && VerifyPasswordInput(passwordField.value) && VerifyPasswordInput(newPasswordField.value)
  }

  /** Changes the signed-in user's password. Without a user, 400. The
      provider is asked only when both passwords are well formed, and every
      refusal leaves the sessions and cookies alone; once the provider has
      accepted, all the user's sessions are replaced by one new session. */
  method Post(
    db: Database, cookies: Cookies, locals: Locals, faroe: Faroe, sha256: Sha256, now: int, randomBytes: seq<byte>,
    passwordField: Option<string>, newPasswordField: Option<string>, updateUserPassword: Result<(), SdkError>)
    returns (status: int)
    requires |randomBytes| == 20
    modifies db`sessions, cookies`outgoing, faroe
    ensures status in {204, 400, 500}
    ensures locals.user.None? ==>
      status == 400 && faroe.sent == old(faroe.sent) && db.sessions == old(db.sessions) && cookies.outgoing == old(cookies.outgoing)
    ensures locals.user.Some? && !PasswordsAccepted(passwordField, newPasswordField) ==>
      status == 400 && faroe.sent == old(faroe.sent) && db.sessions == old(db.sessions) && cookies.outgoing == old(cookies.outgoing)
    ensures locals.user.Some? && PasswordsAccepted(passwordField, newPasswordField) ==>
      var user := locals.user.value;
      var token := GenerateSessionToken(randomBytes);
      var newId := SessionIdOf(sha256, token);
      && faroe.sent == old(faroe.sent) + [UpdateUserPasswordRequest(user.faroeId, passwordField.value, newPasswordField.value)]
      && (updateUserPassword.Failure? ==>
            && status == UpdateUserPasswordErrorStatus(updateUserPassword.error)
            && db.sessions == old(db.sessions) && cookies.outgoing == old(cookies.outgoing))
      && (updateUserPassword.Success? && newId in WithoutUserSessions(old(db.sessions), user.id) ==>
            && status == 500
            && db.sessions == WithoutUserSessions(old(db.sessions), user.id)
            && cookies.outgoing == old(cookies.outgoing))
      && (updateUserPassword.Success? && newId !in WithoutUserSessions(old(db.sessions), user.id) ==>
            && status == 204
            && db.sessions == SessionsAfterPasswordUpdate(old(db.sessions), user.id, newId, now)
            && cookies.outgoing == old(cookies.outgoing)[SESSION_COOKIE := SessionTokenCookie(token, now + SESSION_LIFETIME_MS)])
  {
    if locals.user.None? {
      return 400;
    }
    if passwordField.None? || newPasswordField.None? {
      return 400;
    }
    var password := passwordField.value;
    var newPassword := newPasswordField.value;
    if !VerifyPasswordInput(password) {
      return 400;
    }
    if !VerifyPasswordInput(newPassword) {
      return 400;
    }

    faroe.Send(UpdateUserPasswordRequest(locals.user.value.faroeId, password, newPassword));
    if updateUserPassword.Failure? {
      return UpdateUserPasswordErrorStatus(updateUserPassword.error);
    }

    InvalidateUserSessions(db, locals.user.value.id);

    var sessionToken := GenerateSessionToken(randomBytes);
    var session := CreateSession(db, sha256, sessionToken, locals.user.value.id, None, now);
    if session.Failure? {
      return 500;
    }
    SetSessionTokenCookie(cookies, sessionToken, session.value.expiresAt);
    return 204;
  }
}
