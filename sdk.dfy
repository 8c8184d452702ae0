/** The identity-provider client library (lib/sdk.ts): the input validators,
    the parsers that turn response bodies into records, the classification of
    error responses, and the query the user listing sends. The HTTP exchange
    itself is not modelled: a request's outcome is a value of type
    `FetchOutcome`, and the client object is reduced to the log of the
    requests a flow sends. */
module Sdk {
  import opened Wrappers
  import opened Encoding

  // ---------------------------------------------------------------------
  // Input validators (lib/sdk.ts:558-564)
  // ---------------------------------------------------------------------

  /** A password is accepted when it has 8 to 127 characters. */
  predicate VerifyPasswordInput(password: string) {
    |password| >= 8 && |password| < 128
  }

  /** The characters `String.prototype.trim` removes: ECMAScript's
      WhiteSpace and LineTerminator code points. */
  predicate IsJsWhitespace(c: char) {
    c == '\t' || c == '\n' || c == '\U{000B}' || c == '\U{000C}' || c == '\r' || c == ' '
    || c == '\U{00A0}' || c == '\U{1680}' || ('\U{2000}' <= c <= '\U{200A}')
    || c == '\U{2028}' || c == '\U{2029}' || c == '\U{202F}' || c == '\U{205F}'
    || c == '\U{3000}' || c == '\U{FEFF}'
  }

  /** The characters a regular-expression `.` does not match. */
  predicate IsLineTerminator(c: char) {
    c == '\n' || c == '\r' || c == '\U{2028}' || c == '\U{2029}'
  }

  /** `s` with its leading whitespace removed. */
  function TrimStart(s: string): (r: string)
    ensures |r| <= |s| && r == s[|s| - |r|..]
    ensures forall i :: 0 <= i < |s| - |r| ==> IsJsWhitespace(s[i])
    ensures |r| > 0 ==> !IsJsWhitespace(r[0])
    decreases |s|
  {
    if |s| > 0 && IsJsWhitespace(s[0]) then TrimStart(s[1..]) else s
  }

  /** `s` with its trailing whitespace removed. */
  function TrimEnd(s: string): (r: string)
    ensures |r| <= |s| && r == s[..|r|]
    ensures forall i :: |r| <= i < |s| ==> IsJsWhitespace(s[i])
    ensures |r| > 0 ==> !IsJsWhitespace(r[|r| - 1])
    decreases |s|
  {
    if |s| > 0 && IsJsWhitespace(s[|s| - 1]) then TrimEnd(s[..|s| - 1]) else s
  }

  /** `String.prototype.trim`. */
  function Trim(s: string): (r: string)
  {
    TrimEnd(TrimStart(s))
  }

  /** A string equals its trim exactly when it is empty or neither its first
      nor its last character is whitespace. */
  lemma TrimIdentity(s: string)
    ensures Trim(s) == s <==> |s| == 0 || (!IsJsWhitespace(s[0]) && !IsJsWhitespace(s[|s| - 1]))
  {
    var t := TrimStart(s);
    if |s| > 0 && IsJsWhitespace(s[0]) {
      assert |t| < |s|;
    } else {
      assert t == s;
    }
  }

  /** `/^.+@.+\..+$/.test(s)`: no line terminator anywhere, and `s` splits as
      A@B.C with A, B and C non-empty. */
  predicate MatchesEmailPattern(s: string) {
    && (forall i :: 0 <= i < |s| ==> !IsLineTerminator(s[i]))
    && exists i, j :: 0 < i && i + 1 < j && j + 1 < |s| && s[i] == '@' && s[j] == '.'
  }

  predicate VerifyEmailInput(email: string) {
    |email| > 0 && |email| < 256 && Trim(email) == email && MatchesEmailPattern(email)
  }

  /** What `verifyEmailInput` accepts, with the trim test spelt out. */
  lemma VerifyEmailInputCharacterised(email: string)
    ensures VerifyEmailInput(email) <==>
      && 0 < |email| < 256
      && !IsJsWhitespace(email[0]) && !IsJsWhitespace(email[|email| - 1])
      && MatchesEmailPattern(email)
  {
    if |email| > 0 {
      TrimIdentity(email);
    }
  }

  /** ASCII lower-casing maps no character into or out of the whitespace
      or line-terminator classes. */
  lemma LowerAsciiKeepsCharClasses(c: char)
    ensures IsJsWhitespace(LowerAscii(c)) == IsJsWhitespace(c)
    ensures IsLineTerminator(LowerAscii(c)) == IsLineTerminator(c)
  {
  }

  /** Lower-casing the ASCII letters of an accepted email keeps it accepted:
      the login flow's lower-casing never turns a valid address invalid. */
  lemma LowerCasePreservesEmailValidity(email: string)
    requires VerifyEmailInput(email)
    ensures VerifyEmailInput(ToLowerAscii(email))
  {
    var lower := ToLowerAscii(email);
    TrimIdentity(email);
    TrimIdentity(lower);
    LowerAsciiKeepsCharClasses(email[0]);
    LowerAsciiKeepsCharClasses(email[|email| - 1]);
    var i, j :| 0 < i && i + 1 < j && j + 1 < |email| && email[i] == '@' && email[j] == '.';
    assert lower[i] == '@' && lower[j] == '.';
    forall k | 0 <= k < |lower|
      ensures !IsLineTerminator(lower[k])
    {
      LowerAsciiKeepsCharClasses(email[k]);
    }
  }

  // ---------------------------------------------------------------------
  // Response bodies and errors
  // ---------------------------------------------------------------------

  /** A parsed JSON value. Numbers are integers in this model. */
  datatype Json =
    | JNull
    | JBool(b: bool)
    | JNumber(n: int)
    | JString(s: string)
    | JArray(items: seq<Json>)
    | JObject(fields: map<string, Json>)

  /** `data.key` when `data` is an object whose `key` is a string. */
  function StringField(data: Json, key: string): Option<string> {
    if data.JObject? && key in data.fields && data.fields[key].JString? then Some(data.fields[key].s) else None
  }

  function NumberField(data: Json, key: string): Option<int> {
    if data.JObject? && key in data.fields && data.fields[key].JNumber? then Some(data.fields[key].n) else None
  }

  function BoolField(data: Json, key: string): Option<bool> {
    if data.JObject? && key in data.fields && data.fields[key].JBool? then Some(data.fields[key].b) else None
  }

  /** What a call into the client can throw: the fetch itself failing
      (`FaroeFetchError`), an error response the provider described
      (`FaroeError`), or a plain `Error` with a message. */
  datatype SdkError =
    | FaroeFetchError
    | FaroeError(status: int, code: string)
    | UnexpectedError(message: string)

  /** `e instanceof FaroeError && e.code === code`. */
  predicate IsFaroeCode(e: SdkError, code: string) {
    e.FaroeError? && e.code == code
  }

  /** The response of one request: its status and its body, `None` when the
      body is not JSON. */
  datatype HttpResponse = HttpResponse(status: int, body: Option<Json>)

  datatype FetchOutcome = NetworkFailure | Received(response: HttpResponse)

  /** `Response.ok`. */
  predicate IsOkStatus(status: int) {
    200 <= status <= 299
  }

  /** The error a non-ok response is turned into (lib/sdk.ts:26-35, 52-61). */
  function ErrorFromResponse(response: HttpResponse): (e: SdkError)
    requires !IsOkStatus(response.status)
    ensures e.FaroeError? <==> response.body.Some? && StringField(response.body.value, "error").Some?
    ensures e.FaroeError? ==> e.status == response.status && e.code == StringField(response.body.value, "error").value
    ensures !e.FaroeError? ==> e.UnexpectedError?
  {
    match response.body
    case None => UnexpectedError("Invalid JSON")
    case Some(result) =>
      if !result.JObject? then UnexpectedError("Unexpected error response")
      else if StringField(result, "error").None? then UnexpectedError("Unexpected error response")
      else FaroeError(response.status, StringField(result, "error").value)
  }

  /** `fetchJSON`: the body of an ok response, or the error. */
  function FetchJson(outcome: FetchOutcome): (r: Result<Json, SdkError>)
    ensures outcome.NetworkFailure? ==> r == Failure(FaroeFetchError)
    ensures r.Success? <==> outcome.Received? && IsOkStatus(outcome.response.status) && outcome.response.body.Some?
    ensures r.Success? ==> r.value == outcome.response.body.value
    ensures outcome.Received? && !IsOkStatus(outcome.response.status) ==>
      r == Failure(ErrorFromResponse(outcome.response))
    ensures outcome.Received? && IsOkStatus(outcome.response.status) && outcome.response.body.None? ==>
      r == Failure(UnexpectedError("Invalid JSON"))
    ensures r.Failure? && r.error.FaroeError? <==>
      outcome.Received? && !IsOkStatus(outcome.response.status) && ErrorFromResponse(outcome.response).FaroeError?
  {
    match outcome
    case NetworkFailure => Failure(FaroeFetchError)
    case Received(response) =>
      if !IsOkStatus(response.status) then Failure(ErrorFromResponse(response))
      else if response.body.None? then Failure(UnexpectedError("Invalid JSON"))
      else Success(response.body.value)
  }

  /** `fetchNoBody`: success for an ok response, whatever its body. */
  function FetchNoBody(outcome: FetchOutcome): (r: Result<(), SdkError>)
    ensures outcome.NetworkFailure? ==> r == Failure(FaroeFetchError)
    ensures r.Success? <==> outcome.Received? && IsOkStatus(outcome.response.status)
    ensures outcome.Received? && !IsOkStatus(outcome.response.status) ==>
      r == Failure(ErrorFromResponse(outcome.response))
    ensures r.Failure? && r.error.FaroeError? <==>
      outcome.Received? && !IsOkStatus(outcome.response.status) && ErrorFromResponse(outcome.response).FaroeError?
  {
    match outcome
    case NetworkFailure => Failure(FaroeFetchError)
    case Received(response) =>
      if !IsOkStatus(response.status) then Failure(ErrorFromResponse(response)) else Success(())
  }

  /** The `getX` wrappers: exactly a `NOT_FOUND` provider error becomes
      `null`; every other error is rethrown (lib/sdk.ts:82-87). */
  function NullOnNotFound<T>(r: Result<T, SdkError>): (o: Result<Option<T>, SdkError>)
    ensures r.Success? ==> o == Success(Some(r.value))
    ensures r.Failure? ==> (o == Success(None) <==> IsFaroeCode(r.error, "NOT_FOUND"))
    ensures r.Failure? && !IsFaroeCode(r.error, "NOT_FOUND") ==> o == Failure(r.error)
  {
    match r
    case Success(v) => Success(Some(v))
    case Failure(e) => if IsFaroeCode(e, "NOT_FOUND") then Success(None) else Failure(e)
  }

  /** The `deleteX` wrappers: exactly a `NOT_FOUND` provider error is
      swallowed (lib/sdk.ts:187-191). */
  function IgnoreNotFound(r: Result<(), SdkError>): (o: Result<(), SdkError>)
    ensures o.Success? <==> r.Success? || IsFaroeCode(r.error, "NOT_FOUND")
    ensures o.Failure? ==> o == r
  {
    if r.Failure? && !IsFaroeCode(r.error, "NOT_FOUND") then r else Success(())
  }

  function ThenParse<T>(r: Result<Json, SdkError>, parse: Json -> Result<T, SdkError>): Result<T, SdkError> {
    match r
    case Success(data) => parse(data)
    case Failure(e) => Failure(e)
  }

  // ---------------------------------------------------------------------
  // Records parsed from response bodies (lib/sdk.ts:515-550, 566-686)
  // ---------------------------------------------------------------------

  /** Dates are milliseconds since the epoch; bodies carry seconds. */
  datatype FaroeUser = FaroeUser(id: string, createdAt: int, email: string, recoveryCode: string, totpRegistered: bool)

  datatype FaroeUserEmailVerificationRequest =
    FaroeUserEmailVerificationRequest(userId: string, createdAt: int, expiresAt: int, code: string)

  datatype FaroeEmailUpdateRequest =
    FaroeEmailUpdateRequest(id: string, userId: string, createdAt: int, expiresAt: int, email: string, code: string)

  datatype FaroePasswordResetRequest =
    FaroePasswordResetRequest(id: string, userId: string, createdAt: int, expiresAt: int)

  function ParseUserJson(data: Json): (r: Result<FaroeUser, SdkError>)
    ensures r.Success? <==>
      && StringField(data, "id").Some? && NumberField(data, "created_at").Some?
      && StringField(data, "email").Some? && StringField(data, "recovery_code").Some?
      && BoolField(data, "totp_registered").Some?
    ensures r.Success? ==> r.value == FaroeUser(
      StringField(data, "id").value, NumberField(data, "created_at").value * 1000,
      StringField(data, "email").value, StringField(data, "recovery_code").value,
      BoolField(data, "totp_registered").value)
    ensures r.Failure? ==> r.error == UnexpectedError("Failed to parse user object")
  {
    var failed := Failure(UnexpectedError("Failed to parse user object"));
    if !data.JObject? then failed
    else if StringField(data, "id").None? then failed
    else if NumberField(data, "created_at").None? then failed
    else if StringField(data, "email").None? then failed
    else if StringField(data, "recovery_code").None? then failed
    else if BoolField(data, "totp_registered").None? then failed
    else Success(FaroeUser(
      StringField(data, "id").value,
      NumberField(data, "created_at").value * 1000,
      StringField(data, "email").value,
      StringField(data, "recovery_code").value,
      BoolField(data, "totp_registered").value))
  }

  function ParseUserEmailVerificationRequestJson(data: Json): (r: Result<FaroeUserEmailVerificationRequest, SdkError>)
    ensures r.Success? <==>
      && StringField(data, "user_id").Some? && NumberField(data, "created_at").Some?
      && NumberField(data, "expires_at").Some? && StringField(data, "code").Some?
    ensures r.Success? ==> r.value == FaroeUserEmailVerificationRequest(
      StringField(data, "user_id").value, NumberField(data, "created_at").value * 1000,
      NumberField(data, "expires_at").value * 1000, StringField(data, "code").value)
    ensures r.Failure? ==> r.error == UnexpectedError("Failed to parse email verification request object")
  {
    var failed := Failure(UnexpectedError("Failed to parse email verification request object"));
    if !data.JObject? then failed
    else if StringField(data, "user_id").None? then failed
    else if NumberField(data, "created_at").None? then failed
    else if NumberField(data, "expires_at").None? then failed
    else if StringField(data, "code").None? then failed
    else Success(FaroeUserEmailVerificationRequest(
      StringField(data, "user_id").value,
      NumberField(data, "created_at").value * 1000,
      NumberField(data, "expires_at").value * 1000,
      StringField(data, "code").value))
  }

  function ParseEmailUpdateRequestJson(data: Json): (r: Result<FaroeEmailUpdateRequest, SdkError>)
    ensures r.Success? <==>
      && StringField(data, "id").Some? && StringField(data, "user_id").Some?
      && NumberField(data, "created_at").Some? && NumberField(data, "expires_at").Some?
      && StringField(data, "email").Some? && StringField(data, "code").Some?
    ensures r.Success? ==> r.value == FaroeEmailUpdateRequest(
      StringField(data, "id").value, StringField(data, "user_id").value,
      NumberField(data, "created_at").value * 1000, NumberField(data, "expires_at").value * 1000,
      StringField(data, "email").value, StringField(data, "code").value)
    ensures r.Failure? ==> r.error == UnexpectedError("Failed to parse email verification request object")
  {
    var failed := Failure(UnexpectedError("Failed to parse email verification request object"));
    if !data.JObject? then failed
    else if StringField(data, "id").None? then failed
    else if StringField(data, "user_id").None? then failed
    else if NumberField(data, "created_at").None? then failed
    else if NumberField(data, "expires_at").None? then failed
    else if StringField(data, "email").None? then failed
    else if StringField(data, "code").None? then failed
    else Success(FaroeEmailUpdateRequest(
      StringField(data, "id").value,
      StringField(data, "user_id").value,
      NumberField(data, "created_at").value * 1000,
      NumberField(data, "expires_at").value * 1000,
      StringField(data, "email").value,
      StringField(data, "code").value))
  }

  function ParsePasswordResetRequestJson(data: Json): (r: Result<FaroePasswordResetRequest, SdkError>)
    ensures r.Success? <==>
      && StringField(data, "id").Some? && StringField(data, "user_id").Some?
      && NumberField(data, "created_at").Some? && NumberField(data, "expires_at").Some?
    ensures r.Success? ==> r.value == FaroePasswordResetRequest(
      StringField(data, "id").value, StringField(data, "user_id").value,
      NumberField(data, "created_at").value * 1000, NumberField(data, "expires_at").value * 1000)
    ensures r.Failure? ==> r.error == UnexpectedError("Failed to parse password reset request object")
  {
    var failed := Failure(UnexpectedError("Failed to parse password reset request object"));
    if !data.JObject? then failed
    else if StringField(data, "id").None? then failed
    else if StringField(data, "user_id").None? then failed
    else if NumberField(data, "created_at").None? then failed
    else if NumberField(data, "expires_at").None? then failed
    else Success(FaroePasswordResetRequest(
      StringField(data, "id").value,
      StringField(data, "user_id").value,
      NumberField(data, "created_at").value * 1000,
      NumberField(data, "expires_at").value * 1000))
  }

  function ParseRecoveryCodeJson(data: Json): (r: Result<string, SdkError>)
    ensures r.Success? <==> StringField(data, "recovery_code").Some?
    ensures r.Success? ==> r.value == StringField(data, "recovery_code").value
    ensures r.Failure? ==> r.error == UnexpectedError("Failed to parse recovery code")
  {
    if !data.JObject? || StringField(data, "recovery_code").None? then Failure(UnexpectedError("Failed to parse recovery code"))
    else Success(StringField(data, "recovery_code").value)
  }

  /** The body `createPasswordResetRequest` accepts: a string `code` is
      checked before the request record is parsed (lib/sdk.ts:399-407). */
  function ParseCreatedPasswordResetRequest(data: Json): (r: Result<(FaroePasswordResetRequest, string), SdkError>)
    ensures r.Success? <==> StringField(data, "code").Some? && ParsePasswordResetRequestJson(data).Success?
    ensures r.Success? ==> r.value == (ParsePasswordResetRequestJson(data).value, StringField(data, "code").value)
    ensures StringField(data, "code").None? ==> r == Failure(UnexpectedError("Failed to parse result object"))
  {
    if !data.JObject? || StringField(data, "code").None? then Failure(UnexpectedError("Failed to parse result object"))
    else match ParsePasswordResetRequestJson(data)
      case Failure(e) => Failure(e)
      case Success(request) => Success((request, StringField(data, "code").value))
  }

  /** The body `updateUserEmail` accepts: an object with a string `email`
      (lib/sdk.ts:359-365). */
  function ParseUpdatedEmail(data: Json): (r: Result<string, SdkError>)
    ensures r.Success? <==> StringField(data, "email").Some?
    ensures r.Success? ==> r.value == StringField(data, "email").value
  {
    if !data.JObject? || StringField(data, "email").None? then Failure(UnexpectedError("Failed to parse email"))
    else Success(StringField(data, "email").value)
  }

  // Serialisers used only to state round trips: the body the provider sends
  // for a record whose dates are whole seconds.

  function UserToJson(user: FaroeUser): Json
    requires user.createdAt % 1000 == 0
  {
    JObject(map[
      "id" := JString(user.id),
      "created_at" := JNumber(user.createdAt / 1000),
      "email" := JString(user.email),
      "recovery_code" := JString(user.recoveryCode),
      "totp_registered" := JBool(user.totpRegistered)])
  }

  function EmailUpdateRequestToJson(request: FaroeEmailUpdateRequest): Json
    requires request.createdAt % 1000 == 0 && request.expiresAt % 1000 == 0
  {
    JObject(map[
      "id" := JString(request.id),
      "user_id" := JString(request.userId),
      "created_at" := JNumber(request.createdAt / 1000),
      "expires_at" := JNumber(request.expiresAt / 1000),
      "email" := JString(request.email),
      "code" := JString(request.code)])
  }

  function PasswordResetRequestToJson(request: FaroePasswordResetRequest): Json
    requires request.createdAt % 1000 == 0 && request.expiresAt % 1000 == 0
  {
    JObject(map[
      "id" := JString(request.id),
      "user_id" := JString(request.userId),
      "created_at" := JNumber(request.createdAt / 1000),
      "expires_at" := JNumber(request.expiresAt / 1000)])
  }

  lemma UserJsonRoundTrip(user: FaroeUser)
    requires user.createdAt % 1000 == 0
    ensures ParseUserJson(UserToJson(user)) == Success(user)
  {
  }

  lemma EmailUpdateRequestJsonRoundTrip(request: FaroeEmailUpdateRequest)
    requires request.createdAt % 1000 == 0 && request.expiresAt % 1000 == 0
    ensures ParseEmailUpdateRequestJson(EmailUpdateRequestToJson(request)) == Success(request)
  {
  }

  lemma PasswordResetRequestJsonRoundTrip(request: FaroePasswordResetRequest)
    requires request.createdAt % 1000 == 0 && request.expiresAt % 1000 == 0
    ensures ParsePasswordResetRequestJson(PasswordResetRequestToJson(request)) == Success(request)
  {
  }

  /** A body that passes the password-reset-request parser but has no `code`
      is still refused by `createPasswordResetRequest`. */
  lemma CreatedPasswordResetRequestNeedsCode(request: FaroePasswordResetRequest)
    requires request.createdAt % 1000 == 0 && request.expiresAt % 1000 == 0
    ensures ParsePasswordResetRequestJson(PasswordResetRequestToJson(request)).Success?
    ensures ParseCreatedPasswordResetRequest(PasswordResetRequestToJson(request)).Failure?
  {
  }

  // ---------------------------------------------------------------------
  // Single-record getters and deleters
  // ---------------------------------------------------------------------

  /** `getUser`: both the fetch and the parse run inside the `try`, so only
      a provider `NOT_FOUND` gives `null`; a body the parser refuses is
      rethrown. */
  function GetUser(outcome: FetchOutcome): (r: Result<Option<FaroeUser>, SdkError>)
    ensures r == Success(None) <==> FetchJson(outcome).Failure? && IsFaroeCode(FetchJson(outcome).error, "NOT_FOUND")
    ensures r.Success? && r.value.Some? ==>
      FetchJson(outcome).Success? && ParseUserJson(FetchJson(outcome).value) == Success(r.value.value)
    ensures FetchJson(outcome).Success? ==> r == NullOnNotFound(ParseUserJson(FetchJson(outcome).value))
    ensures FetchJson(outcome).Success? && ParseUserJson(FetchJson(outcome).value).Success? ==>
      r == Success(Some(ParseUserJson(FetchJson(outcome).value).value))
    ensures FetchJson(outcome).Failure? && !IsFaroeCode(FetchJson(outcome).error, "NOT_FOUND") ==>
      r == Failure(FetchJson(outcome).error)
  {
    NullOnNotFound(ThenParse(FetchJson(outcome), ParseUserJson))
  }

  /** `deleteUser`: succeeds on an ok response and on `NOT_FOUND`. */
  function DeleteUser(outcome: FetchOutcome): (r: Result<(), SdkError>)
    ensures r.Success? <==> FetchNoBody(outcome).Success? || IsFaroeCode(FetchNoBody(outcome).error, "NOT_FOUND")
  {
    IgnoreNotFound(FetchNoBody(outcome))
  }

  // ---------------------------------------------------------------------
  // List getters (lib/sdk.ts:169-181, 323-341, 454-472)
  // ---------------------------------------------------------------------

  /** Parses every element in order, as the getters' loops push them; the
      first element the parser refuses ends the loop with its error. */
  method ParseEach<T>(items: seq<Json>, parse: Json -> Result<T, SdkError>) returns (r: Result<seq<T>, SdkError>)
    ensures r.Success? <==> forall i :: 0 <= i < |items| ==> parse(items[i]).Success?
    ensures r.Success? ==> |r.value| == |items| && forall i :: 0 <= i < |items| ==> r.value[i] == parse(items[i]).value
    ensures r.Failure? ==>
      exists k :: 0 <= k < |items| && parse(items[k]) == Failure(r.error) && (forall i :: 0 <= i < k ==> parse(items[i]).Success?)
  {
    var parsed: seq<T> := [];
    var i := 0;
    while i < |items|
      invariant 0 <= i <= |items|
      invariant |parsed| == i
      invariant forall k :: 0 <= k < i ==> parse(items[k]).Success? && parsed[k] == parse(items[k]).value
    {
      var item := parse(items[i]);
      if item.Failure? {
        return Failure(item.error);
      }
      parsed := parsed + [item.value];
      i := i + 1;
    }
    return Success(parsed);
  }

  /** `getUserEmailUpdateRequests`: `null` on `NOT_FOUND`, an error unless
      the body is an array, and otherwise every element parsed. */
  method GetUserEmailUpdateRequests(outcome: FetchOutcome) returns (r: Result<Option<seq<FaroeEmailUpdateRequest>>, SdkError>)
    ensures r == Success(None) <==> FetchJson(outcome).Failure? && IsFaroeCode(FetchJson(outcome).error, "NOT_FOUND")
    ensures r.Success? && r.value.Some? ==>
      && FetchJson(outcome).Success?
      && FetchJson(outcome).value.JArray?
      && |r.value.value| == |FetchJson(outcome).value.items|
      && (forall i :: 0 <= i < |FetchJson(outcome).value.items| ==>
            ParseEmailUpdateRequestJson(FetchJson(outcome).value.items[i]) == Success(r.value.value[i]))
    ensures FetchJson(outcome).Success? && !FetchJson(outcome).value.JArray? ==>
      r == Failure(UnexpectedError("Failed to parse result"))
    ensures FetchJson(outcome).Failure? && !IsFaroeCode(FetchJson(outcome).error, "NOT_FOUND") ==>
      r == Failure(FetchJson(outcome).error)
    ensures FetchJson(outcome).Success? && FetchJson(outcome).value.JArray? ==>
      (r.Success? && r.value.Some? <==>
        forall i :: 0 <= i < |FetchJson(outcome).value.items| ==> ParseEmailUpdateRequestJson(FetchJson(outcome).value.items[i]).Success?)
    ensures FetchJson(outcome).Success? && FetchJson(outcome).value.JArray? && r.Failure? ==>
      exists k :: 0 <= k < |FetchJson(outcome).value.items|
        && ParseEmailUpdateRequestJson(FetchJson(outcome).value.items[k]) == Failure(r.error)
        && (forall i :: 0 <= i < k ==> ParseEmailUpdateRequestJson(FetchJson(outcome).value.items[i]).Success?)
  {
    var fetched := NullOnNotFound(FetchJson(outcome));
    if fetched.Failure? {
      return Failure(fetched.error);
    }
    if fetched.value.None? {
      return Success(None);
    }
    var result := fetched.value.value;
    if !result.JArray? {
      return Failure(UnexpectedError("Failed to parse result"));
    }
    var updateRequests := ParseEach(result.items, ParseEmailUpdateRequestJson);
    if updateRequests.Failure? {
      return Failure(updateRequests.error);
    }
    return Success(Some(updateRequests.value));
  }

  /** `getUserPasswordResetRequests`, the same shape over reset requests. */
  method GetUserPasswordResetRequests(outcome: FetchOutcome) returns (r: Result<Option<seq<FaroePasswordResetRequest>>, SdkError>)
    ensures r == Success(None) <==> FetchJson(outcome).Failure? && IsFaroeCode(FetchJson(outcome).error, "NOT_FOUND")
    ensures r.Success? && r.value.Some? ==>
      && FetchJson(outcome).Success?
      && FetchJson(outcome).value.JArray?
      && |r.value.value| == |FetchJson(outcome).value.items|
      && (forall i :: 0 <= i < |FetchJson(outcome).value.items| ==>
            ParsePasswordResetRequestJson(FetchJson(outcome).value.items[i]) == Success(r.value.value[i]))
    ensures FetchJson(outcome).Success? && !FetchJson(outcome).value.JArray? ==>
      r == Failure(UnexpectedError("Failed to parse result"))
    ensures FetchJson(outcome).Failure? && !IsFaroeCode(FetchJson(outcome).error, "NOT_FOUND") ==>
      r == Failure(FetchJson(outcome).error)
    ensures FetchJson(outcome).Success? && FetchJson(outcome).value.JArray? ==>
      (r.Success? && r.value.Some? <==>
        forall i :: 0 <= i < |FetchJson(outcome).value.items| ==> ParsePasswordResetRequestJson(FetchJson(outcome).value.items[i]).Success?)
    ensures FetchJson(outcome).Success? && FetchJson(outcome).value.JArray? && r.Failure? ==>
      exists k :: 0 <= k < |FetchJson(outcome).value.items|
        && ParsePasswordResetRequestJson(FetchJson(outcome).value.items[k]) == Failure(r.error)
        && (forall i :: 0 <= i < k ==> ParsePasswordResetRequestJson(FetchJson(outcome).value.items[i]).Success?)
  {
    var fetched := NullOnNotFound(FetchJson(outcome));
    if fetched.Failure? {
      return Failure(fetched.error);
    }
    if fetched.value.None? {
      return Success(None);
    }
    var result := fetched.value.value;
    if !result.JArray? {
      return Failure(UnexpectedError("Failed to parse result"));
    }
    var resetRequests := ParseEach(result.items, ParsePasswordResetRequestJson);
    if resetRequests.Failure? {
      return Failure(resetRequests.error);
    }
    return Success(Some(resetRequests.value));
  }

  // ---------------------------------------------------------------------
  // The user listing's query (lib/sdk.ts:90-123)
  // ---------------------------------------------------------------------

  datatype UserSortBy = CreatedAt | Id | Email
  datatype SortOrder = Ascending | Descending

  datatype GetUsersOptions = GetUsersOptions(
    sortBy: Option<UserSortBy>,
    sortOrder: Option<SortOrder>,
    perPage: Option<int>,
    page: Option<int>,
    emailQuery: Option<string>)

  /** A `URLSearchParams`, by name; the order of the names in the query
      string is not modelled. */
  type SearchParams = map<string, string>

  /** `n.toString()` for an integer. */
  function IntToString(n: int): (s: string)
    ensures |s| > 0
  {
    if n < 0 then "-" + NatToString(-n) else NatToString(n)
  }

  function NatToString(n: nat): (s: string)
    ensures |s| > 0 && forall i :: 0 <= i < |s| ==> '0' <= s[i] <= '9'
  {
    if n < 10 then [('0' as int + n) as char] else NatToString(n / 10) + [('0' as int + n % 10) as char]
  }

  /** The value of a string of decimal digits. */
  function DecimalValue(s: string): int
    requires forall i :: 0 <= i < |s| ==> '0' <= s[i] <= '9'
  {
    if s == [] then 0 else DecimalValue(s[..|s| - 1]) * 10 + (s[|s| - 1] as int - '0' as int)
  }

  lemma {:induction false} NatToStringRoundTrip(n: nat)
    ensures DecimalValue(NatToString(n)) == n
  {
    if n >= 10 {
      var s := NatToString(n);
      NatToStringRoundTrip(n / 10);
      assert s[..|s| - 1] == NatToString(n / 10);
    }
  }

  function SortByParam(sortBy: UserSortBy): string {
    match sortBy
    case CreatedAt => "created_at"
    case Id => "id"
    case Email => "email"
  }

  function SortOrderParam(sortOrder: SortOrder): string {
    match sortOrder
    case Ascending => "ascending"
    case Descending => "descending"
  }

  /** The query `getUsers` sends: sorted by creation date, ascending, 20 per
      page, page 1 unless the options say otherwise, and an email filter only
      when one is given. */
  method GetUsersSearchParams(options: Option<GetUsersOptions>) returns (params: SearchParams)
    ensures params.Keys ==
      {"sort_by", "sort_order", "per_page", "page"} + (if options.Some? && options.value.emailQuery.Some? then {"email_query"} else {})
    ensures params["sort_by"] ==
      SortByParam(if options.Some? && options.value.sortBy.Some? then options.value.sortBy.value else CreatedAt)
    ensures params["sort_order"] ==
      SortOrderParam(if options.Some? && options.value.sortOrder.Some? then options.value.sortOrder.value else Ascending)
    ensures params["per_page"] ==
      IntToString(if options.Some? && options.value.perPage.Some? then options.value.perPage.value else 20)
    ensures params["page"] ==
      IntToString(if options.Some? && options.value.page.Some? then options.value.page.value else 1)
    ensures "email_query" in params ==> params["email_query"] == options.value.emailQuery.value
  {
    params := map[];
    var sortBy := if options.Some? && options.value.sortBy.Some? then options.value.sortBy.value else CreatedAt;
    params := params["sort_by" := SortByParam(sortBy)];
    var sortOrder := if options.Some? && options.value.sortOrder.Some? then options.value.sortOrder.value else Ascending;
    params := params["sort_order" := SortOrderParam(sortOrder)];
    var perPage := if options.Some? && options.value.perPage.Some? then options.value.perPage.value else 20;
    params := params["per_page" := IntToString(perPage)];
    var page := if options.Some? && options.value.page.Some? then options.value.page.value else 1;
    params := params["page" := IntToString(page)];
    if options.Some? && options.value.emailQuery.Some? {
      params := params["email_query" := options.value.emailQuery.value];
    }
  }

  /** `getUsers` after the pagination headers: the body must be an array,
      and every element is parsed as a user. */
  method ParseUsersPage(body: Json) returns (r: Result<seq<FaroeUser>, SdkError>)
    ensures !body.JArray? ==> r == Failure(UnexpectedError("Failed to parse result"))
    ensures r.Success? ==>
      && body.JArray? && |r.value| == |body.items|
      && (forall i :: 0 <= i < |body.items| ==> ParseUserJson(body.items[i]) == Success(r.value[i]))
    ensures body.JArray? && (forall i :: 0 <= i < |body.items| ==> ParseUserJson(body.items[i]).Success?) ==> r.Success?
    ensures body.JArray? && r.Failure? ==>
      exists k :: 0 <= k < |body.items|
        && ParseUserJson(body.items[k]) == Failure(r.error)
        && (forall i :: 0 <= i < k ==> ParseUserJson(body.items[i]).Success?)
  {
    if !body.JArray? {
      return Failure(UnexpectedError("Failed to parse result"));
    }
    r := ParseEach(body.items, ParseUserJson);
  }

  // ---------------------------------------------------------------------
  // The client object, reduced to the requests the flows send
  // ---------------------------------------------------------------------

  /** One request a flow sends to the identity provider (the client IP the
      flows pass, always "0.0.0.0", is left off). */
  datatype FaroeRequest =
    | CreateUserRequest(email: string, password: string)
    | DeleteUserRequest(userId: string)
    | VerifyUserPasswordRequest(userId: string, password: string)
    | UpdateUserPasswordRequest(userId: string, password: string, newPassword: string)
    | CreateUserEmailVerificationRequestRequest(userId: string)
    | VerifyUserEmailRequest(userId: string, code: string)
    | CreateUserEmailUpdateRequestRequest(userId: string, email: string)
    | VerifyNewUserEmailRequest(requestId: string, code: string)
    | CreateUserPasswordResetRequestRequest(userId: string)
    | VerifyPasswordResetRequestEmailRequest(requestId: string, code: string)
    | ResetUserPasswordRequest(requestId: string, password: string)

  /** The `faroe` client. Its answers are inputs of the flows; what the
      model records is the sequence of requests sent through it. */
  class Faroe {
    var sent: seq<FaroeRequest>

    constructor ()
      ensures sent == []
    {
      sent := [];
    }

    method Send(request: FaroeRequest)
      modifies this
      ensures sent == old(sent) + [request]
    {
      sent := sent + [request];
    }
  }
}
