/** `POST /api/signup` (src/pages/api/signup.ts). */
module Signup {
  import opened Wrappers
  import opened Encoding
  import opened Sdk
  import opened Db
  import opened Users
  import opened Astro
  import opened Sessions

  predicate IsAsciiAlphanumeric(c: char) {
    'A' <= c <= 'Z' || 'a' <= c <= 'z' || '0' <= c <= '9'
  }

  /** The username test this flow applies, in place of
      `verifyUsernameInput`: 3 to 31 characters, at least one of them an
      ASCII letter or digit (`/[A-Za-z0-9]/`). */
  predicate IsSignupUsername(username: string) {
    && 3 <= |username| < 32
    && exists i :: 0 <= i < |username| && IsAsciiAlphanumeric(username[i])
  }

  /** The two username tests disagree in both directions. A three-letter
      name passes here but is too short for `verifyUsernameInput`. */
  lemma SignupAcceptsThreeLetters()
    ensures IsSignupUsername("abc") && !VerifyUsernameInput("abc")
  {
    assert IsAsciiAlphanumeric("abc"[0]);
  }

  /** A name with surrounding spaces passes here but not
      `verifyUsernameInput`, whose trim test refuses it. */
  lemma SignupAcceptsSurroundingSpaces()
    ensures IsSignupUsername(" ab ") && !VerifyUsernameInput(" ab ")
  {
    assert IsAsciiAlphanumeric(" ab "[1]);
    VerifyUsernameInputCharacterised(" ab ");
  }

  /** Four underscores fail here for want of a letter or digit, but pass
      `verifyUsernameInput`. */
  lemma SignupRefusesUnderscores()
    ensures !IsSignupUsername("____") && VerifyUsernameInput("____")
  {
    var s := "____";
    assert !IsJsWhitespace(s[0]) && !IsJsWhitespace(s[3]);
    VerifyUsernameInputCharacterised(s);
  }

  /** The catch block around `faroe.createUser`. */
  function CreateUserErrorStatus(e: SdkError): (status: int)
    ensures status == 400 <==>
      IsFaroeCode(e, "EMAIL_ALREADY_USED") || IsFaroeCode(e, "WEAK_PASSWORD") || IsFaroeCode(e, "TOO_MANY_REQUESTS")
    ensures status != 400 ==> status == 500
  {
    if IsFaroeCode(e, "EMAIL_ALREADY_USED") then 400
    else if IsFaroeCode(e, "WEAK_PASSWORD") then 400
    else if IsFaroeCode(e, "TOO_MANY_REQUESTS") then 400
    else 500
  }

  /** Every local guard passes: all three fields present and well formed. */
  predicate InputAccepted(usernameField: Option<string>, emailField: Option<string>, passwordField: Option<string>) {
    && usernameField.Some? && emailField.Some? && passwordField.Some?
    && IsSignupUsername(usernameField.value)
    && VerifyEmailInput(emailField.value)
    && VerifyPasswordInput(passwordField.value)
  }

  /** The post-condition of a signup whose input passed every guard. */
  ghost predicate AccountCreated(
    db: Database, cookies: Cookies, faroe: Faroe, sha256: Sha256, now: int, randomBytes: seq<byte>,
    oldUsers: map<int, UserRow>, oldNextUserId: int, oldSessions: map<string, SessionRow>,
    oldOutgoing: map<string, Cookie>, oldSent: seq<FaroeRequest>,
    username: string, email: string, password: string,
    createdUser: Result<FaroeUser, SdkError>, userInserted: bool,
    verificationRequest: Result<FaroeUserEmailVerificationRequest, SdkError>, status: int)
    requires |randomBytes| == 20
    reads db, cookies, faroe
  {
    var createRequest := CreateUserRequest(email, password);
    && (createdUser.Failure? ==>
          && status == CreateUserErrorStatus(createdUser.error)
          && db.users == oldUsers
          && faroe.sent == oldSent + [createRequest])
    && (createdUser.Success? && !userInserted ==>
          && status == 500
          && db.users == oldUsers
          && faroe.sent == oldSent + [createRequest, DeleteUserRequest(createdUser.value.id)])
    && (createdUser.Success? && userInserted ==>
          var id := oldNextUserId;
          var token := GenerateSessionToken(randomBytes);
          var sessionId := SessionIdOf(sha256, token);
          && id !in oldUsers
          && db.users == oldUsers[id := UserRow(createdUser.value.id, email, username, false)]
          && faroe.sent == oldSent + [createRequest, CreateUserEmailVerificationRequestRequest(createdUser.value.id)]
          && (verificationRequest.Failure? || sessionId in oldSessions ==> status == 500)
          && (verificationRequest.Success? && sessionId !in oldSessions ==>
                && status == 204
                && db.sessions == oldSessions[sessionId := NewSessionRow(id, None, now)]
                && cookies.outgoing == oldOutgoing[SESSION_COOKIE := SessionTokenCookie(token, now + SESSION_LIFETIME_MS)]))
  }

  /** Everything after the input guards: the provider account, the local
      user, the verification request, the session and its cookie. */
  method CreateAccount(
    db: Database, cookies: Cookies, faroe: Faroe, sha256: Sha256, now: int, randomBytes: seq<byte>,
    username: string, email: string, password: string,
    createdUser: Result<FaroeUser, SdkError>, userInserted: bool,
    verificationRequest: Result<FaroeUserEmailVerificationRequest, SdkError>)
    returns (status: int)
    requires db.Valid()
    requires |randomBytes| == 20
    modifies db`users, db`nextUserId, db`sessions, cookies`outgoing, faroe
    ensures db.Valid()
    ensures status in {204, 400, 500}
    ensures status != 204 ==> db.sessions == old(db.sessions) && cookies.outgoing == old(cookies.outgoing)
    ensures AccountCreated(db, cookies, faroe, sha256, now, randomBytes,
      old(db.users), old(db.nextUserId), old(db.sessions), old(cookies.outgoing), old(faroe.sent),
      username, email, password, createdUser, userInserted, verificationRequest, status)
  {
    faroe.Send(CreateUserRequest(email, password));
    if createdUser.Failure? {
      return CreateUserErrorStatus(createdUser.error);
    }
    var faroeUser := createdUser.value;

    var user := CreateUser(db, faroeUser.id, email, username, userInserted);
    if user.Failure? {
      faroe.Send(DeleteUserRequest(faroeUser.id));
      return 500;
    }

    faroe.Send(CreateUserEmailVerificationRequestRequest(user.value.faroeId));
    if verificationRequest.Failure? {
      return 500;
    }

    var sessionToken := GenerateSessionToken(randomBytes);
    var session := CreateSession(db, sha256, sessionToken, user.value.id, None, now);
    if session.Failure? {
      return 500;
    }
    SetSessionTokenCookie(cookies, sessionToken, session.value.expiresAt);
    return 204;
  }

  /** Creates an account. `createdUser` is the provider's answer to the
      account creation, `userInserted` whether the local INSERT succeeds,
      and `verificationRequest` the provider's answer to the request for a
      verification email; the last is not caught, so its failure ends the
      request with 500 after the local user exists. The email is stored as
      given, not lower-cased. */
  method Post(
    db: Database, cookies: Cookies, faroe: Faroe, sha256: Sha256, now: int, randomBytes: seq<byte>,
    usernameField: Option<string>, emailField: Option<string>, passwordField: Option<string>,
    createdUser: Result<FaroeUser, SdkError>, userInserted: bool,
    verificationRequest: Result<FaroeUserEmailVerificationRequest, SdkError>)
    returns (status: int)
    requires db.Valid()
    requires |randomBytes| == 20
    modifies db`users, db`nextUserId, db`sessions, cookies`outgoing, faroe
    ensures db.Valid()
    ensures status in {204, 400, 500}
    ensures status != 204 ==> db.sessions == old(db.sessions) && cookies.outgoing == old(cookies.outgoing)
    ensures !InputAccepted(usernameField, emailField, passwordField) ==>
      status == 400 && faroe.sent == old(faroe.sent) && db.users == old(db.users)
    ensures InputAccepted(usernameField, emailField, passwordField) ==>
      AccountCreated(db, cookies, faroe, sha256, now, randomBytes,
        old(db.users), old(db.nextUserId), old(db.sessions), old(cookies.outgoing), old(faroe.sent),
        usernameField.value, emailField.value, passwordField.value,
        createdUser, userInserted, verificationRequest, status)
  {
    if usernameField.None? || emailField.None? || passwordField.None? {
      return 400;
    }
    var username := usernameField.value;
    var email := emailField.value;
    var password := passwordField.value;
    if !IsSignupUsername(username) {
      return 400;
    }
    if !VerifyEmailInput(email) {
      return 400;
    }
    if !VerifyPasswordInput(password) {
      return 400;
    }
    status := CreateAccount(db, cookies, faroe, sha256, now, randomBytes,
      username, email, password, createdUser, userInserted, verificationRequest);
  }
}
