/** `POST /api/verify-password-reset-email`
    (src/pages/api/verify-password-reset-email.ts). */
module VerifyPasswordResetEmail {
  import opened Wrappers
  import opened Encoding
  import opened Sdk
  import opened Db
  import opened Astro
  import opened Sessions
  import opened PasswordResetSessions

  /** The catch block around `faroe.verifyPasswordResetRequestEmail`; a
      `NOT_FOUND` additionally discards the reset session. */
  function VerifyPasswordResetRequestEmailErrorStatus(e: SdkError): (status: int)
    ensures status == 400 <==>
      IsFaroeCode(e, "NOT_FOUND") || IsFaroeCode(e, "INCORRECT_CODE") || IsFaroeCode(e, "TOO_MANY_REQUESTS")
    ensures status != 400 ==> status == 500
  {
    if IsFaroeCode(e, "NOT_FOUND") then 400
    else if IsFaroeCode(e, "INCORRECT_CODE") then 400
    else if IsFaroeCode(e, "TOO_MANY_REQUESTS") then 400
    else 500
  }

  /** Records that the user proved control of the email address for the
      current reset session. A session already verified gets 403 and is
      left alone, so the flag is set at most once and never cleared. */
  method Post(
    db: Database, cookies: Cookies, faroe: Faroe, sha256: Sha256, now: int,
    codeField: Option<string>, verifyPasswordResetRequestEmail: Result<(), SdkError>)
    returns (status: int)
    modifies db`sessions, db`passwordResetSessions, cookies`outgoing, faroe
    ensures status in {204, 400, 403, 500}
    ensures ResetVerifiedFlagsKept(old(db.passwordResetSessions), db.passwordResetSessions)
    ensures var (validation, sessionsAfter, resetCookie) := ValidatePasswordResetRequest(
        old(db.passwordResetSessions), old(db.sessions), db.users, cookies.incoming, sha256, now);
      var validated := WithCookie(old(cookies.outgoing), PASSWORD_RESET_SESSION_COOKIE, resetCookie);
      && db.sessions == sessionsAfter
      && (validation.NoResetSession? ==>
            && status == 400 && faroe.sent == old(faroe.sent)
            && db.passwordResetSessions == old(db.passwordResetSessions) && cookies.outgoing == validated)
      && (validation.ResetSessionAndUser? && validation.session.emailVerified ==>
            && status == 403 && faroe.sent == old(faroe.sent)
            && db.passwordResetSessions == old(db.passwordResetSessions) && cookies.outgoing == validated)
      && (validation.ResetSessionAndUser? && !validation.session.emailVerified
          && (codeField.None? || |codeField.value| != 8) ==>
            && status == 400 && faroe.sent == old(faroe.sent)
            && db.passwordResetSessions == old(db.passwordResetSessions) && cookies.outgoing == validated)
      && (validation.ResetSessionAndUser? && !validation.session.emailVerified
          && codeField.Some? && |codeField.value| == 8 ==>
            var session := validation.session;
            && faroe.sent == old(faroe.sent) + [VerifyPasswordResetRequestEmailRequest(session.faroeRequestId, codeField.value)]
            && (verifyPasswordResetRequestEmail.Success? ==>
                  && status == 204
                  && db.passwordResetSessions == WithResetSessionEmailVerified(old(db.passwordResetSessions), session.id)
                  && cookies.outgoing == validated)
            && (verifyPasswordResetRequestEmail.Failure? ==>
                  status == VerifyPasswordResetRequestEmailErrorStatus(verifyPasswordResetRequestEmail.error))
            && (verifyPasswordResetRequestEmail.Failure? && IsFaroeCode(verifyPasswordResetRequestEmail.error, "NOT_FOUND") ==>
                  && db.passwordResetSessions == WithoutPasswordResetSession(old(db.passwordResetSessions), session.id)
                  && cookies.outgoing == validated[PASSWORD_RESET_SESSION_COOKIE := CLEARED_COOKIE])
            && (verifyPasswordResetRequestEmail.Failure? && !IsFaroeCode(verifyPasswordResetRequestEmail.error, "NOT_FOUND") ==>
                  db.passwordResetSessions == old(db.passwordResetSessions) && cookies.outgoing == validated))
  {
    var validation := ValidatePasswordResetSessionRequest(db, cookies, sha256, now);
    if validation.NoResetSession? {
      return 400;
    }
    var session := validation.session;
    if session.emailVerified {
      return 403;
    }
    if codeField.None? {
      return 400;
    }
    var code := codeField.value;
    if |code| != 8 {
      return 400;
    }

    faroe.Send(VerifyPasswordResetRequestEmailRequest(session.faroeRequestId, code));
    if verifyPasswordResetRequestEmail.Failure? {
      var e := verifyPasswordResetRequestEmail.error;
      if IsFaroeCode(e, "NOT_FOUND") {
        InvalidatePasswordResetSession(db, session.id);
        DeletePasswordResetSessionTokenCookie(cookies);
        return 400;
      }
      return VerifyPasswordResetRequestEmailErrorStatus(e);
    }

    SetPasswordResetSessionAsEmailVerified(db, session.id);
    return 204;
  }
}
