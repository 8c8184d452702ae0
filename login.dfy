/** `POST /api/login` (src/pages/api/login.ts). */
module Login {
  import opened Wrappers
  import opened Encoding
  import opened Sdk
  import opened Db
  import opened Users
  import opened Astro
  import opened Sessions

  /** The catch block around the password check: the two named provider
      errors are the user's fault (400), anything else is the server's. */
  function VerifyUserPasswordErrorStatus(e: SdkError): (status: int)
    ensures status == 400 <==> IsFaroeCode(e, "INCORRECT_PASSWORD") || IsFaroeCode(e, "TOO_MANY_REQUESTS")
    ensures status != 400 ==> status == 500
  {
    if IsFaroeCode(e, "INCORRECT_PASSWORD") then 400
    else if IsFaroeCode(e, "TOO_MANY_REQUESTS") then 400
    else 500
  }

  /** The user the guards let through to the password check: both fields
      present, the lower-cased email and the password well formed, and a
      user found under the lower-cased email. */
  function GuardedUser(emailField: Option<string>, passwordField: Option<string>, getUserFromEmail: UserLookup)
    : Option<User>
  {
    if emailField.None? || passwordField.None? then None
    else
      var email := ToLowerAscii(emailField.value);
      if !VerifyEmailInput(email) || !VerifyPasswordInput(passwordField.value) then None
      else getUserFromEmail(email)
  }

  /** The password check and the lookup see the email lower-cased, so two
      spellings that differ only in ASCII case reach the same user. */
  lemma LoginIgnoresEmailCase(a: string, b: string, password: Option<string>, getUserFromEmail: UserLookup)
    requires ToLowerAscii(a) == ToLowerAscii(b)
    ensures GuardedUser(Some(a), password, getUserFromEmail) == GuardedUser(Some(b), password, getUserFromEmail)
  {
  }

  /** Signs a user in. Every refusal leaves the session table and the
      cookies as they were; the provider is asked only once every local
      guard has passed; on success exactly one session is added, for the
      user found, with no pending email update. */
  method Post(
    db: Database, cookies: Cookies, faroe: Faroe, sha256: Sha256, now: int, randomBytes: seq<byte>,
    emailField: Option<string>, passwordField: Option<string>,
    getUserFromEmail: UserLookup, verifyUserPassword: Result<(), SdkError>)
    returns (status: int)
    requires |randomBytes| == 20
    modifies db`sessions, cookies`outgoing, faroe
    ensures status in {204, 400, 500}
    ensures (emailField.None? || passwordField.None?) ==> status == 400
    ensures status != 204 ==> db.sessions == old(db.sessions) && cookies.outgoing == old(cookies.outgoing)
    ensures GuardedUser(emailField, passwordField, getUserFromEmail).None? ==>
      status == 400 && faroe.sent == old(faroe.sent)
    ensures GuardedUser(emailField, passwordField, getUserFromEmail).Some? ==>
      var user := GuardedUser(emailField, passwordField, getUserFromEmail).value;
      var token := GenerateSessionToken(randomBytes);
      var id := SessionIdOf(sha256, token);
      && faroe.sent == old(faroe.sent) + [VerifyUserPasswordRequest(user.faroeId, passwordField.value)]
      && (verifyUserPassword.Failure? ==> status == VerifyUserPasswordErrorStatus(verifyUserPassword.error))
      && (verifyUserPassword.Success? && id in old(db.sessions) ==> status == 500)
      && (verifyUserPassword.Success? && id !in old(db.sessions) ==>
            && status == 204
            && db.sessions == old(db.sessions)[id := NewSessionRow(user.id, None, now)]
            && cookies.outgoing == old(cookies.outgoing)[SESSION_COOKIE := SessionTokenCookie(token, now + SESSION_LIFETIME_MS)])
  {
    if emailField.None? || passwordField.None? {
      return 400;
    }
    var email := emailField.value;
    var password := passwordField.value;
    email := ToLowerAscii(email);
    if !VerifyEmailInput(email) {
      return 400;
    }
    if !VerifyPasswordInput(password) {
      return 400;
    }
    var user := getUserFromEmail(email);
    if user.None? {
      return 400;
    }
    faroe.Send(VerifyUserPasswordRequest(user.value.faroeId, password));
    if verifyUserPassword.Failure? {
      return VerifyUserPasswordErrorStatus(verifyUserPassword.error);
    }
    var sessionToken := GenerateSessionToken(randomBytes);
    var session := CreateSession(db, sha256, sessionToken, user.value.id, None, now);
    if session.Failure? {
      return 500;
    }
    SetSessionTokenCookie(cookies, sessionToken, session.value.expiresAt);
    return 204;
  }
}
