/** The characters controller (src/characters/characters.controller.ts):
    request guards and input coercion in front of the service. Each handler
    answers with the service call it delegates to, or with the error it
    throws before reaching the service. */
module Controller {
  import opened Wrappers
  import opened Text
  import opened DataUrl
  import Characters

  /** A JSON value as it arrives in a request body; an absent property is
      `Undefined`. Numbers are integers here, and `Object` is a plain
      (non-array) object. */
  datatype JsValue = Undefined | Null | Bool(b: bool) | Str(s: string) | Num(n: int) | Object

  /** `v == null`: true for both null and undefined. */
  predicate IsNullish(v: JsValue)
  {
    v.Undefined? || v.Null?
  }

  /** The result of `Number(v)`. The conversion of a string is left
      symbolic. */
  datatype JsNumber = Finite(value: int) | NaN | NumberOfString(text: string)

  /** `String(v)` for a value that is not nullish. */
  function ToJsString(v: JsValue): string
    requires !IsNullish(v)
  {
    match v
    case Bool(b) => if b then "true" else "false"
    case Str(s) => s
    case Num(n) => IntToString(n)
    case Object => "[object Object]"
  }

  /** `Number(v)` for a value that is not nullish. */
  function ToJsNumber(v: JsValue): JsNumber
    requires !IsNullish(v)
  {
    match v
    case Bool(b) => Finite(if b then 1 else 0)
    case Str(s) => NumberOfString(s)
    case Num(n) => Finite(n)
    case Object => NaN
  }

  /** What a handler throws. */
  datatype HttpError = BadRequest(message: string) | InternalError(message: string)

  const MissingIds: string := "jobId, userId \U{D544}\U{C694}"
  const MissingSuccess: string := "success (boolean) \U{D544}\U{C694}"
  const MissingImage: string := "image \U{D30C}\U{C77C}\U{C774} \U{D544}\U{C694}\U{D569}\U{B2C8}\U{B2E4}."
  const UserIdRequired: string := "userId is required"

  /** The service calls the handlers make. */
  datatype ServiceCall =
    | GenerateProfileWith(userId: int, image: Characters.ImageInput)
    | AcceptWith(userId: int, profileUrl: string)
    | MotionCallbackWith(jobId: string, callbackUserId: JsNumber, success: bool)
    | GetStatusWith(userId: int, jobId: string)

  /** The callback body `{ jobId?, userId?, success? }`. */
  datatype CallbackBody = CallbackBody(jobId: JsValue, userId: JsValue, success: JsValue)

  /** A handled callback: the service call, then the reply `{ ok: true }`. */
  datatype CallbackAnswer = CallbackAnswer(call: ServiceCall, ok: bool)

  /** The `success` coercion: exactly the boolean or its lower-case string
      spelling; anything else is undecided. */
  function CoerceSuccess(raw: JsValue): (r: Option<bool>)
    ensures r == Some(true) <==> raw == Bool(true) || raw == Str("true")
    ensures r == Some(false) <==> raw == Bool(false) || raw == Str("false")
  {
    if raw == Bool(true) || raw == Str("true") then Some(true)
    else if raw == Bool(false) || raw == Str("false") then Some(false)
    else None
  }

  /** Values that look like a boolean but are not accepted. */
  lemma CoerceSuccessRejects()
    ensures CoerceSuccess(Undefined) == None && CoerceSuccess(Null) == None
    ensures CoerceSuccess(Str("TRUE")) == None && CoerceSuccess(Str("False")) == None
    ensures CoerceSuccess(Num(1)) == None && CoerceSuccess(Num(0)) == None
  {
  }

  /** `motionCallback`: missing ids are rejected first, then an undecided
      `success`; a valid body is forwarded once with the job id as a string
      and the user id as a number, and answered `{ ok: true }`. */
  function MotionCallback(body: CallbackBody): (r: Result<CallbackAnswer, HttpError>)
    ensures IsNullish(body.jobId) || IsNullish(body.userId) ==> r == Err(BadRequest(MissingIds))
    ensures !IsNullish(body.jobId) && !IsNullish(body.userId) && CoerceSuccess(body.success).None? ==>
      r == Err(BadRequest(MissingSuccess))
    ensures r.Ok? <==> !IsNullish(body.jobId) && !IsNullish(body.userId) && CoerceSuccess(body.success).Some?
    ensures r.Ok? ==> r.value.ok && r.value.call.MotionCallbackWith?
  {
    if IsNullish(body.jobId) || IsNullish(body.userId) then Err(BadRequest(MissingIds))
    else
      match CoerceSuccess(body.success)
      case None => Err(BadRequest(MissingSuccess))
      case Some(success) =>
        Ok(CallbackAnswer(MotionCallbackWith(ToJsString(body.jobId), ToJsNumber(body.userId), success), true))
  }

  /** A well-formed callback forwards its string job id unchanged, its user
      id as that number and `success` as decided. */
  lemma MotionCallbackForwards(jobId: string, userId: int, success: bool, spelledAsString: bool)
    ensures var raw := if spelledAsString then Str(if success then "true" else "false") else Bool(success);
      MotionCallback(CallbackBody(Str(jobId), Num(userId), raw))
        == Ok(CallbackAnswer(MotionCallbackWith(jobId, Finite(userId), success), true))
  {
  }

  /** The `userId == null` guard every authenticated handler starts with:
      a missing user id throws before anything else, and 0 is a user id. */
  function RequireUser(userId: Option<int>): (r: Result<int, HttpError>)
    ensures r.Err? <==> userId.None?
    ensures r.Err? ==> r.error == InternalError(UserIdRequired)
    ensures r.Ok? ==> r.value == userId.value
  {
    match userId
    case None => Err(InternalError(UserIdRequired))
    case Some(id) => Ok(id)
  }

  /** The uploaded multipart file; `buffer` may be absent. */
  datatype UploadedFile = UploadedFile(buffer: Option<Bytes>)

  /** `createProfileUpload`: the user guard, then the file guard (`file?.buffer`
      must be present; an empty buffer is still a buffer). */
  function CreateProfileUpload(userId: Option<int>, file: Option<UploadedFile>): (r: Result<ServiceCall, HttpError>)
    ensures userId.None? ==> r == Err(InternalError(UserIdRequired))
    ensures userId.Some? && (file.None? || file.value.buffer.None?) ==> r == Err(BadRequest(MissingImage))
    ensures r.Ok? <==> userId.Some? && file.Some? && file.value.buffer.Some?
    ensures r.Ok? ==> r.value == GenerateProfileWith(userId.value, Characters.BufferImage(file.value.buffer.value))
  {
    match RequireUser(userId)
    case Err(e) => Err(e)
    case Ok(id) =>
      if file.None? || file.value.buffer.None? then Err(BadRequest(MissingImage))
      else Ok(GenerateProfileWith(id, Characters.BufferImage(file.value.buffer.value)))
  }

  /** `createProfile`: the base64 string of the body goes to the profile step. */
  function CreateProfile(userId: Option<int>, imageBase64: string): (r: Result<ServiceCall, HttpError>)
    ensures r.Err? <==> userId.None?
    ensures r.Err? ==> r.error == InternalError(UserIdRequired)
    ensures r.Ok? ==> r.value == GenerateProfileWith(userId.value, Characters.TextImage(imageBase64))
  {
    match RequireUser(userId)
    case Err(e) => Err(e)
    case Ok(id) => Ok(GenerateProfileWith(id, Characters.TextImage(imageBase64)))
  }

  /** `create`: the accepted profile URL goes to `accept`. */
  function Create(userId: Option<int>, profileUrl: string): (r: Result<ServiceCall, HttpError>)
    ensures r.Err? <==> userId.None?
    ensures r.Err? ==> r.error == InternalError(UserIdRequired)
    ensures r.Ok? ==> r.value == AcceptWith(userId.value, profileUrl)
  {
    match RequireUser(userId)
    case Err(e) => Err(e)
    case Ok(id) => Ok(AcceptWith(id, profileUrl))
  }

  /** `findOne`: the path's job id goes to `getStatus` for this user. */
  function FindOne(userId: Option<int>, jobId: string): (r: Result<ServiceCall, HttpError>)
    ensures r.Err? <==> userId.None?
    ensures r.Err? ==> r.error == InternalError(UserIdRequired)
    ensures r.Ok? ==> r.value == GetStatusWith(userId.value, jobId)
  {
    match RequireUser(userId)
    case Err(e) => Err(e)
    case Ok(id) => Ok(GetStatusWith(id, jobId))
  }

  /** No authenticated handler reaches the service without a user id, the
      upload handler checks the user before the file, and user 0 gets
      through every guard. */
  lemma GuardsBeforeService(file: Option<UploadedFile>, image: string, profileUrl: string, jobId: string)
    ensures CreateProfileUpload(None, file) == CreateProfile(None, image) == Create(None, profileUrl)
      == FindOne(None, jobId) == Err(InternalError(UserIdRequired))
    ensures CreateProfile(Some(0), image).Ok? && Create(Some(0), profileUrl).Ok? && FindOne(Some(0), jobId).Ok?
    ensures CreateProfileUpload(Some(0), Some(UploadedFile(Some([])))).Ok?
  {
  }
}
