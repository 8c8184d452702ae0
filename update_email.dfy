/** `POST /api/update-email` (src/pages/api/update-email.ts). */
module UpdateEmail {
  import opened Wrappers
  import opened Sdk
  import opened Db
  import opened Users
  import opened Sessions
  import opened Middleware

  /** The catch block around `faroe.verifyNewUserEmail`: the three named
      provider errors are the user's (400), anything else the server's. */
  function VerifyNewUserEmailErrorStatus(e: SdkError): (status: int)
    ensures status == 400 <==>
      IsFaroeCode(e, "INVALID_REQUEST_ID") || IsFaroeCode(e, "INCORRECT_CODE") || IsFaroeCode(e, "TOO_MANY_REQUESTS")
    ensures status != 400 ==> status == 500
  {
    if IsFaroeCode(e, "INVALID_REQUEST_ID") then 400
    else if IsFaroeCode(e, "INCORRECT_CODE") then 400
    else if IsFaroeCode(e, "TOO_MANY_REQUESTS") then 400
    else 500
  }

  /** The guards before the provider is asked: a signed-in user whose
      current address is verified, a pending email-update request on the
      session, and an 8-character code. */
  predicate MayVerifyNewEmail(locals: Locals, codeField: Option<string>)
    reads locals
  {
    && locals.session.Some? && locals.user.Some?
    && locals.user.value.emailVerified
    && locals.session.value.faroeEmailUpdateRequestId.Some?
    && codeField.Some? && |codeField.value| == 8
  }

  /** Completes an email change. `verifyNewUserEmail` is the provider's
      answer: the new address. Once the provider confirms the code, the
      user's row takes the new address, stays verified, and the session's
      pending request is cleared; nothing changes otherwise, and no
      verified flag is ever cleared. */
  method Post(
    db: Database, locals: Locals, faroe: Faroe, codeField: Option<string>,
    verifyNewUserEmail: Result<string, SdkError>)
    returns (status: int)
    modifies db`users, db`sessions, faroe
    ensures status in {204, 400, 403, 500}
    ensures VerifiedFlagsKept(old(db.users), db.users)
    ensures status != 204 ==> db.users == old(db.users) && db.sessions == old(db.sessions)
    ensures locals.session.None? || locals.user.None? ==> status == 400
    ensures (locals.session.Some? && locals.user.Some? &&
             (!locals.user.value.emailVerified || locals.session.value.faroeEmailUpdateRequestId.None?)) ==>
      status == 403
    ensures (locals.session.Some? && locals.user.Some? && locals.user.value.emailVerified &&
             locals.session.value.faroeEmailUpdateRequestId.Some? && (codeField.None? || |codeField.value| != 8)) ==>
      status == 400
    ensures !MayVerifyNewEmail(locals, codeField) ==> faroe.sent == old(faroe.sent)
    ensures MayVerifyNewEmail(locals, codeField) ==>
      var session := locals.session.value;
      && faroe.sent == old(faroe.sent) + [VerifyNewUserEmailRequest(session.faroeEmailUpdateRequestId.value, codeField.value)]
      && (verifyNewUserEmail.Failure? ==> status == VerifyNewUserEmailErrorStatus(verifyNewUserEmail.error))
      && (verifyNewUserEmail.Success? ==>
            && status == 204
            && db.users == WithEmailAndVerified(old(db.users), locals.user.value.id, verifyNewUserEmail.value)
            && db.sessions == WithEmailUpdateRequestId(old(db.sessions), session.id, None))
  {
    if locals.session.None? || locals.user.None? {
      return 400;
    }
    if !locals.user.value.emailVerified {
      return 403;
    }
    if locals.session.value.faroeEmailUpdateRequestId.None? {
      return 403;
    }
    if codeField.None? {
      return 400;
    }
    var code := codeField.value;
    if |code| != 8 {
      return 400;
    }

    faroe.Send(VerifyNewUserEmailRequest(locals.session.value.faroeEmailUpdateRequestId.value, code));
    if verifyNewUserEmail.Failure? {
      return VerifyNewUserEmailErrorStatus(verifyNewUserEmail.error);
    }
    var updatedEmail := verifyNewUserEmail.value;

    UpdatesKeepVerifiedFlags(db.users, locals.user.value.id, updatedEmail);
    UpdateUserEmailAndSetEmailAsVerified(db, locals.user.value.id, updatedEmail);
    DeleteSessionFaroeEmailUpdateRequestId(db, locals.session.value.id);
    return 204;
  }
}
