/** `POST /api/verify-email` (src/pages/api/verify-email.ts). */
module VerifyEmail {
  import opened Wrappers
  import opened Sdk
  import opened Db
  import opened Users
  import opened Middleware

  /** The catch block around `faroe.verifyUserEmail`, for every error but
      `NOT_ALLOWED` (an expired code), which sends a new code instead. */
  function VerifyUserEmailErrorStatus(e: SdkError): (status: int)
    ensures status == 400 <==> IsFaroeCode(e, "INCORRECT_CODE") || IsFaroeCode(e, "TOO_MANY_REQUESTS")
    ensures status != 400 ==> status == 500
  {
    if IsFaroeCode(e, "INCORRECT_CODE") then 400
    else if IsFaroeCode(e, "TOO_MANY_REQUESTS") then 400
    else 500
  }

  /** The guards before the provider is asked: a signed-in user whose
      address is not yet verified, and an 8-character code. */
  predicate MayVerifyEmail(locals: Locals, codeField: Option<string>)
    reads locals
  {
    && locals.session.Some? && locals.user.Some?
    && !locals.user.value.emailVerified
    && codeField.Some? && |codeField.value| == 8
  }

  /** Verifies the signed-in user's address. `verifyUserEmail` is the
      provider's answer to the code, and `newVerificationRequest` its answer
      to the request for a fresh code that follows an expired one; the
      latter is not caught, so its failure ends the request with 500. Only
      a confirmed code sets the user's flag; every other path leaves the
      users as they were. */
  method Post(
    db: Database, locals: Locals, faroe: Faroe, codeField: Option<string>,
    verifyUserEmail: Result<(), SdkError>,
    newVerificationRequest: Result<FaroeUserEmailVerificationRequest, SdkError>)
    returns (status: int)
    modifies db`users, faroe
    ensures status in {204, 400, 403, 500}
    ensures status != 204 ==> db.users == old(db.users)
    ensures locals.session.None? || locals.user.None? ==> status == 400
    ensures locals.session.Some? && locals.user.Some? && locals.user.value.emailVerified ==> status == 403
    ensures (locals.session.Some? && locals.user.Some? && !locals.user.value.emailVerified &&
             (codeField.None? || |codeField.value| != 8)) ==>
      status == 400
    ensures !MayVerifyEmail(locals, codeField) ==> faroe.sent == old(faroe.sent)
    ensures MayVerifyEmail(locals, codeField) ==>
      var user := locals.user.value;
      var check := VerifyUserEmailRequest(user.faroeId, codeField.value);
      && (verifyUserEmail.Success? ==>
            && status == 204
            && faroe.sent == old(faroe.sent) + [check]
            && db.users == WithEmailVerified(old(db.users), user.id))
      && (verifyUserEmail.Failure? && IsFaroeCode(verifyUserEmail.error, "NOT_ALLOWED") ==>
            && status == (if newVerificationRequest.Success? then 400 else 500)
            && faroe.sent == old(faroe.sent) + [check, CreateUserEmailVerificationRequestRequest(user.faroeId)])
      && (verifyUserEmail.Failure? && !IsFaroeCode(verifyUserEmail.error, "NOT_ALLOWED") ==>
            && status == VerifyUserEmailErrorStatus(verifyUserEmail.error)
            && faroe.sent == old(faroe.sent) + [check])
  {
    if locals.session.None? || locals.user.None? {
      return 400;
    }
    if locals.user.value.emailVerified {
      return 403;
    }
    if codeField.None? {
      return 400;
    }
    var code := codeField.value;
    if |code| != 8 {
      return 400;
    }

    faroe.Send(VerifyUserEmailRequest(locals.user.value.faroeId, code));
    if verifyUserEmail.Failure? {
      if IsFaroeCode(verifyUserEmail.error, "NOT_ALLOWED") {
        faroe.Send(CreateUserEmailVerificationRequestRequest(locals.user.value.faroeId));
        if newVerificationRequest.Failure? {
          return 500;
        }
        return 400;
      }
      return VerifyUserEmailErrorStatus(verifyUserEmail.error);
    }

    SetUserAsEmailVerified(db, locals.user.value.id);
    return 204;
  }
}
