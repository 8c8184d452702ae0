/** `POST /api/send-email-update-code` (src/pages/api/send-email-update-code.ts). */
module SendEmailUpdateCode {
  import opened Wrappers
  import opened Sdk
  import opened Db
  import opened Sessions
  import opened Middleware

  /** The catch block around `faroe.createUserEmailUpdateRequest`. */
  function CreateUserEmailUpdateRequestErrorStatus(e: SdkError): (status: int)
    ensures status == 400 <==> IsFaroeCode(e, "EMAIL_ALREADY_USED")
    ensures status == 429 <==> IsFaroeCode(e, "TOO_MANY_REQUESTS")
    ensures status != 400 && status != 429 ==> status == 500
  {
    if IsFaroeCode(e, "EMAIL_ALREADY_USED") then 400
    else if IsFaroeCode(e, "TOO_MANY_REQUESTS") then 429
    else 500
  }

  /** Starts an email change for the signed-in user. `createUserEmailUpdateRequest`
      is the provider's answer. Only a signed-in request with a well-formed
      address reaches the provider; once it answers with a request, that
      request's id is recorded on the current session and nowhere else. */
  method Post(
    db: Database, locals: Locals, faroe: Faroe, emailField: Option<string>,
    createUserEmailUpdateRequest: Result<FaroeEmailUpdateRequest, SdkError>)
    returns (status: int)
    modifies db`sessions, faroe
    ensures status in {204, 400, 401, 429, 500}
    ensures status != 204 ==> db.sessions == old(db.sessions)
    ensures locals.session.None? || locals.user.None? ==>
      status == 401 && faroe.sent == old(faroe.sent)
    ensures locals.session.Some? && locals.user.Some? && (emailField.None? || !VerifyEmailInput(emailField.value)) ==>
      status == 400 && faroe.sent == old(faroe.sent)
    ensures locals.session.Some? && locals.user.Some? && emailField.Some? && VerifyEmailInput(emailField.value) ==>
      && faroe.sent == old(faroe.sent) + [CreateUserEmailUpdateRequestRequest(locals.user.value.faroeId, emailField.value)]
      && (createUserEmailUpdateRequest.Failure? ==>
            status == CreateUserEmailUpdateRequestErrorStatus(createUserEmailUpdateRequest.error))
      && (createUserEmailUpdateRequest.Success? ==>
            && status == 204
            && db.sessions == WithEmailUpdateRequestId(
                 old(db.sessions), locals.session.value.id, Some(createUserEmailUpdateRequest.value.id)))
  {
    if locals.session.None? || locals.user.None? {
      return 401;
    }
    if emailField.None? {
      return 400;
    }
    var email := emailField.value;
    if !VerifyEmailInput(email) {
      return 400;
    }

    faroe.Send(CreateUserEmailUpdateRequestRequest(locals.user.value.faroeId, email));
    if createUserEmailUpdateRequest.Failure? {
      return CreateUserEmailUpdateRequestErrorStatus(createUserEmailUpdateRequest.error);
    }
    var updateRequest := createUserEmailUpdateRequest.value;

    SetSessionFaroeEmailUpdateRequestId(db, locals.session.value.id, updateRequest.id);
    return 204;
  }
}
