/** `POST /api/forgot-password` (src/pages/api/forgot-password.ts). */
module ForgotPassword {
  import opened Wrappers
  import opened Encoding
  import opened Sdk
  import opened Db
  import opened Users
  import opened Astro
  import opened Sessions
  import opened PasswordResetSessions

  /** The catch block around `faroe.createUserPasswordResetRequest`. */
  function CreatePasswordResetRequestErrorStatus(e: SdkError): (status: int)
    ensures status == 400 <==> IsFaroeCode(e, "USER_NOT_EXISTS") || IsFaroeCode(e, "TOO_MANY_REQUESTS")
    ensures status != 400 ==> status == 500
  {
    if IsFaroeCode(e, "USER_NOT_EXISTS") then 400
    else if IsFaroeCode(e, "TOO_MANY_REQUESTS") then 400
    else 500
  }

  /** Starts a password reset. A malformed email address gets a response
      with no explicit status, which is 200. The lookup uses the email as
      given (not lower-cased). On success one unverified reset session is
      added, bound to the provider's reset request and expiring in 10
      minutes, beside any earlier ones of the same user. */
  method Post(
    db: Database, cookies: Cookies, faroe: Faroe, sha256: Sha256, now: int, randomBytes: seq<byte>,
    emailField: Option<string>, getUserFromEmail: UserLookup,
    createPasswordResetRequest: Result<(FaroePasswordResetRequest, string), SdkError>)
    returns (status: int)
    requires |randomBytes| == 20
    modifies db`passwordResetSessions, cookies`outgoing, faroe
    ensures status in {200, 204, 400, 500}
    ensures status != 204 ==>
      db.passwordResetSessions == old(db.passwordResetSessions) && cookies.outgoing == old(cookies.outgoing)
    ensures emailField.None? ==> status == 400 && faroe.sent == old(faroe.sent)
    ensures emailField.Some? && !VerifyEmailInput(emailField.value) ==> status == 200 && faroe.sent == old(faroe.sent)
    ensures emailField.Some? && VerifyEmailInput(emailField.value) && getUserFromEmail(emailField.value).None? ==>
      status == 400 && faroe.sent == old(faroe.sent)
    ensures emailField.Some? && VerifyEmailInput(emailField.value) && getUserFromEmail(emailField.value).Some? ==>
      var user := getUserFromEmail(emailField.value).value;
      var token := GenerateSessionToken(randomBytes);
      var id := SessionIdOf(sha256, token);
      && faroe.sent == old(faroe.sent) + [CreateUserPasswordResetRequestRequest(user.faroeId)]
      && (createPasswordResetRequest.Failure? ==>
            status == CreatePasswordResetRequestErrorStatus(createPasswordResetRequest.error))
      && (createPasswordResetRequest.Success? && id in old(db.passwordResetSessions) ==> status == 500)
      && (createPasswordResetRequest.Success? && id !in old(db.passwordResetSessions) ==>
            && status == 204
            && db.passwordResetSessions == old(db.passwordResetSessions)[id :=
                 NewPasswordResetSessionRow(createPasswordResetRequest.value.0.id, user.id, now)]
            && cookies.outgoing == old(cookies.outgoing)[PASSWORD_RESET_SESSION_COOKIE :=
                 SessionTokenCookie(token, now + PASSWORD_RESET_SESSION_LIFETIME_MS)])
  {
    if emailField.None? {
      return 400;
    }
    var email := emailField.value;
    if !VerifyEmailInput(email) {
      return 200;
    }
    var user := getUserFromEmail(email);
    if user.None? {
      return 400;
    }

    faroe.Send(CreateUserPasswordResetRequestRequest(user.value.faroeId));
    if createPasswordResetRequest.Failure? {
      return CreatePasswordResetRequestErrorStatus(createPasswordResetRequest.error);
    }
    var resetRequest := createPasswordResetRequest.value.0;

    var sessionToken := GenerateSessionToken(randomBytes);
    var session := CreatePasswordResetSession(db, sha256, sessionToken, user.value.id, resetRequest.id, now);
    if session.Failure? {
      return 500;
    }
    SetPasswordResetSessionTokenCookie(cookies, sessionToken, session.value.expiresAt);
    return 204;
  }
}
