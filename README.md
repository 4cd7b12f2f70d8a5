# Character motion-job lifecycle, modelled in Dafny

This project models the motion-job pipeline of a NestJS backend. A user first gets a
generated profile image. When they accept it, the backend records a pending
`character_pending` row and enqueues a `generate-motion` task. A worker asks a generation
service for four pose images (front, back, left, right) and records the outcome on the
row. The owner polls for the row's status.

Along with that pipeline the model covers:

- the blob-storage URL construction, including connection-string parsing and the
  `?`-split round trip between upload and public URLs;
- the generation client's helpers (base-URL normalisation, mock-mode selection,
  data-URL stripping) and the order of its HTTP requests;
- the controller's guards and callback-input coercion;
- user sign-up.

Module layout (one file per module):

| file | module | models |
|---|---|---|
| `wrappers.dfy` | `Wrappers` | `Option`, `Result`, `Outcome` |
| `text.dfy` | `Text`, `Config` | the JavaScript string operations the core uses; a configuration map with defaults |
| `directions.dfy` | `Directions` | the four poses, their file names and per-pose records |
| `data_url.dfy` | `DataUrl` | the `data:image/<type>;base64,` header |
| `azure.dfy` | `Azure` | `AzureStorageService` |
| `ai.dfy` | `Ai` | `AiService` and its HTTP client |
| `character_entity.dfy` | `CharacterEntity` | the `CharacterPending` record and its statuses |
| `character_store.dfy` | `CharacterStore` | the `character_pending` table as a keyed map, with its repository class |
| `motion_queue.dfy` | `MotionQueue` | the motion queue as an append-only sequence of tasks |
| `characters.dfy` | `Characters` | `CharactersService` |
| `motion_processor.dfy` | `Motion` | `MotionProcessor` |
| `lifecycle.dfy` | `Lifecycle` | accept, process and poll, composed |
| `controller.dfy` | `Controller` | `CharactersController` |
| `users.dfy` | `Users` | `UsersService` |

The foreign parts of the system are parameters of the model:

- SAS signing is a `Signer` function.
- The clock is a `nowMs` argument.
- `randomUUID` becomes a `jobId`/`uuid` argument.
- `createReadSasUrl` is a `readUrl` function.
- `Buffer.from(…, 'base64')` is a `Decoder`.
- `bcrypt.hash` is a `Hasher`.
- Each HTTP exchange is answered by an oracle `respond(n, request)`. The client keeps a
  trace of the requests it sends.
- Each database write (the job insert, the job update and the user insert) can be made to fail through a fault flag, which stands for a lost connection.
- Enqueueing can be refused through an `available` flag.

Where the behaviour described for the system and the code differ, the model follows the
code:

- **No asynchronous mode.** There is no callback URL in the generation request. The
  worker marks a job `done` as soon as the generation call returns with an ok response.
- **No status guard.** Nothing stops a terminal row from changing again. A retried task
  can turn `done` into `failed`; see `Motion.DoneJobCanRegress` and
  `CharacterStore.UpdateOverwritesTerminal`.
- **No error column.** A failed job stores no error text.
- **Callback effects are not shown.** The handler `handleMotionCallback` has no
  definition in the code, so neither its idempotence nor its no-op on an unknown job
  appears in this model.

The database is taken to be MySQL in strict mode:

- a value longer than its column is rejected (`DataTooLong`);
- a second row with the same `job_id` is rejected (`DuplicateJobId`);
- an update that matches no row changes nothing and is not an error.

## Model

| member | source | states |
|---|---|---|
| Text.BeforeFirst | src/characters/characters.service.ts:57 | `split('?')[0]` is the longest prefix without `?`; the string is unchanged when it has no `?`, and otherwise the cut is at the first `?` |
| Text.BeforeFirstOfJoin | src/characters/characters.service.ts:57 | cutting `a + "?" + b` at the first `?` gives back `a` whenever `a` has no `?` |
| Text.Trim | src/azure/azure-storage.service.ts:48 | `trim()` keeps a contiguous piece of the input that neither starts nor ends with ECMAScript white space, after which only white space is removed |
| Text.ParseInt10 | src/azure/azure-storage.service.ts:37-40 | `parseInt(s, 10)` is NaN exactly when no decimal digit follows the leading white space and optional sign |
| Text.ParseIntOfIntToString | src/azure/azure-storage.service.ts:37-40 | `parseInt` reads back every integer written in decimal |
| Config.GetOr | src/azure/azure-storage.service.ts:33-36 | `config.get(key, default)` gives the configured value when the key is set and the default otherwise |
| Directions.FileNameInjective | src/azure/azure-storage.service.ts:89-92 | the four pose file names are pairwise different |
| Directions.PerDirection.InOrder | src/ai/ai.service.ts:92-95 | the per-pose values listed front, back, left, right |
| Azure.ParseFromConnectionString | src/azure/azure-storage.service.ts:43-49 | null exactly when no case-insensitive `key=` is followed by a non-`;` character; otherwise the trimmed run after the first such occurrence |
| Azure.ParseLeadingEntry | src/azure/azure-storage.service.ts:43-49 | a leading `key=value` entry yields that value |
| Azure.EmptyEntryIsNull | src/azure/azure-storage.service.ts:47-48 | `AccountName=;` yields null |
| Azure.FromEmptyConfig | src/azure/azure-storage.service.ts:24-41 | without configuration: empty account name and key, container `character`, 60-minute expiry |
| Azure.FromConfigDefaults | src/azure/azure-storage.service.ts:24-41 | for every configuration: a set container name or expiry is used as given, the expiry through `parseInt`; a missing one falls back to `character` or 60 minutes; without a connection string the account name and key are empty |
| Azure.FromConfigReadsAccount | src/azure/azure-storage.service.ts:25-28 | the account name is the value of a leading `AccountName=` entry of the connection string |
| Azure.AzureStorageService.BlobUrl | src/azure/azure-storage.service.ts:72 | the blob URL decomposes back into its container URL and blob path |
| Azure.AzureStorageService.UploadExpiry | src/azure/azure-storage.service.ts:56-57 | the expiry is now plus the configured minutes, and undefined when the configured minutes are NaN |
| Azure.AzureStorageService.UploadOptions | src/azure/azure-storage.service.ts:59-65 | upload tokens carry permissions `cw`, start now, and name this container and blob |
| Azure.AzureStorageService.CreateUploadSasUrl | src/azure/azure-storage.service.ts:55-76 | the blob URL names the given path and the upload URL is the blob URL plus `?` and a token; when the blob URL has no `?`, cutting the upload URL at `?` gives the blob URL back |
| Azure.AzureStorageService.CreateCharacterUploadSasUrls | src/azure/azure-storage.service.ts:82-94 | each pose gets the URLs for `{prefix}/{pose}.png`, and the four blob URLs are pairwise distinct |
| CharacterEntity.ParseStatus | src/characters/constants/character-status.enum.ts:2-9 | a stored status string names exactly one of `motion_processing`, `done`, `failed` |
| CharacterEntity.StatusRoundTrip | src/characters/constants/character-status.enum.ts:2-9 | every status reads back from its stored string |
| CharacterEntity.StatusNamesFit | src/characters/entities/character-pending.entity.ts:28-34 | every status string fits the 32-character status column |
| CharacterEntity.NewPending | src/characters/entities/character-pending.entity.ts:28-31 | a new row starts `motion_processing` with no pose URLs |
| CharacterStore.FindPending | src/characters/characters.service.ts:98-100 | a row is found exactly when the job id exists and belongs to this user |
| CharacterStore.Inserted | src/characters/entities/character-pending.entity.ts:18-19 | a lost connection refuses the insert; otherwise it succeeds exactly for a new job id whose values fit their columns, a taken job id being reported as such; a successful insert adds that row, keeps every other row, and keeps the table invariant |
| CharacterStore.Updated | src/characters/motion.processor.ts:49-50 | an update keyed by (job id, user) changes only the matching row, and only as the patch says; it is an error only on a fault or an overlong value, and keeps the table invariant |
| CharacterStore.UpdateOverwritesTerminal | src/characters/motion.processor.ts:60-63 | a `done` row can be overwritten to `failed`, because no status guard exists |
| CharacterStore.JobStore.FindOne | src/characters/characters.service.ts:98-100 | the repository lookup agrees with the keyed, owner-scoped table lookup |
| CharacterStore.JobStore.Save | src/characters/characters.service.ts:65 | `save` applies `Inserted` (with its fault) to the table, or leaves the table as it was and reports why |
| CharacterStore.JobStore.Update | src/characters/motion.processor.ts:49-58 | `update` applies `Updated` to the table, or leaves the table as it was and reports why |
| MotionQueue.Queue.Add | src/characters/characters.service.ts:67-91 | an available queue appends exactly the given task; a refused add appends nothing |
| DataUrl.MimeType | src/characters/characters.service.ts:30 | a data-URL header is recognised exactly as `data:image/`, a non-empty type without `;`, and `;base64,` |
| DataUrl.MimeTypeOfHeader | src/ai/ai.service.ts:37 | any header followed by anything is recognised with its own type |
| Ai.StripTrailingSlash | src/ai/ai.service.ts:28-30 | one trailing `/` is removed, and no more than one |
| Ai.IsMockExactly | src/ai/ai.service.ts:31-32 | mock mode is on exactly when `AI_MOCK` is `true` in any letter case, and off when it is unset |
| Ai.DefaultsFromEmptyConfig | src/ai/ai.service.ts:27-33 | without configuration: `http://localhost:8000`, real mode |
| Ai.StripBase64Prefix | src/ai/ai.service.ts:36-39 | the input comes back unchanged unless it is a data URL, and anything else returned is that URL's payload |
| Ai.StripBase64PrefixOfDataUrl | src/ai/ai.service.ts:36-39 | a data URL yields its payload exactly when the payload is one line of at least one character; otherwise the whole input comes back |
| Ai.MessageCarriesStatus | src/ai/ai.service.ts:58-61 | the message of each error raised by a non-ok PUT or POST reply contains that reply's HTTP status in decimal |
| Ai.PutAllStops | src/ai/ai.service.ts:92-95 | sequential uploads stop at the first non-ok reply and throw the blob-upload error with that reply's status and text |
| Ai.PutAllTargets | src/ai/ai.service.ts:92-95 | the uploads go to the given URLs in order with the same body, and all of them are made when none fails |
| Ai.ProfileRunStops | src/ai/ai.service.ts:65-81 | `generateProfile` fails exactly on its failing reply, with the error of that request: a rejected fetch, or the upload or generation error with the reply's status |
| Ai.MotionRunStops | src/ai/ai.service.ts:84-108 | `generateMotion` stops at its first failing reply, with the error of that request: the profile-fetch error naming the URL for the GET, the upload or generation error with the reply's status for a PUT or POST |
| Ai.FailedReplyCarriesStatus | src/ai/ai.service.ts:58-61 | a run that fails on a reply to a PUT or POST throws the error of that call with the reply's status and text, and its message shows the status |
| Ai.PutAllReportsStatus | src/ai/ai.service.ts:92-95 | a failed run of sequential uploads fails on a PUT, and when that PUT got a reply the error is the blob-upload error with its status and text, shown in the message |
| Ai.MockUploadsReportStatus | src/ai/ai.service.ts:85-96 | after a good profile fetch, a mock motion run that fails on a reply fails on a PUT, with the blob-upload error showing that reply's status |
| Ai.ProfileRunReportsStatus | src/ai/ai.service.ts:58-80 | a failed `generateProfile` whose request got a reply throws `Blob upload failed` (mock) or `AI profile generation failed` (real) with that status in its message |
| Ai.MotionRunReportsStatus | src/ai/ai.service.ts:85-107 | a failed `generateMotion` reports the status of a non-ok PUT or POST reply in its message; only a non-ok profile GET throws the URL instead |
| Ai.RealModePostsOnce | src/ai/ai.service.ts:72-76 | in real mode each generation call is one POST of the request as JSON, to `/profile` or `/motion` |
| Ai.MockProfilePutsOnce | src/ai/ai.service.ts:66-70 | mock profile makes one PUT, of the decoded source image, to the upload URL, and nothing else |
| Ai.MockMotionOrder | src/ai/ai.service.ts:85-96 | mock motion fetches the profile first and once; a failed fetch ends the run before any upload; otherwise the same bytes go front, back, left, right in order; no POST is made |
| Ai.HttpClient.Fetch | src/ai/ai.service.ts:49-57 | every request is recorded in order, and the reply is the oracle's answer for that position |
| Ai.AiService.constructor | src/ai/ai.service.ts:27-33 | the client's base URL and mode come from the configuration as normalised |
| Ai.AiService.PutImage | src/ai/ai.service.ts:48-62 | `putImage` sends exactly the requests of its run and returns its outcome |
| Ai.AiService.GenerateProfile | src/ai/ai.service.ts:65-81 | `generateProfile` sends exactly the requests of its run and returns its outcome |
| Ai.AiService.PutFour | src/ai/ai.service.ts:92-95 | the four awaited uploads send exactly the requests of the sequential upload run |
| Ai.AiService.GenerateMotion | src/ai/ai.service.ts:84-108 | `generateMotion` sends exactly the requests of its run and returns its outcome |
| Characters.QueuedStatusIsNotStored | src/characters/characters.service.ts:93 | the accept response's status `motion_queued` is not a status a row can hold |
| Characters.ToImageBufferSpec | src/characters/characters.service.ts:28-32 | a buffer passes through; a string without a header is decoded whole; a header is cut off before decoding |
| Characters.StripsDisagreeOnEmptyPayload | src/characters/characters.service.ts:30 | for a bare header, `toImageBuffer` strips down to the empty string while `stripBase64Prefix` returns its input |
| Characters.PendingRowSpec | src/characters/characters.service.ts:57-64 | the saved row has the caller's job and user, status `motion_processing`, no pose URLs, and the profile URL cut before its first `?` (unchanged if it has none) |
| Characters.MotionTaskSpec | src/characters/characters.service.ts:67-91 | the task shares job, user and stored profile URL with the row; its queue id is the job id, with 3 attempts and exponential backoff of 10000 ms; the pose URLs are those of `motion/{userId}/{jobId}/{pose}.png` and pairwise distinct |
| Characters.MotionUploadRoundTrip | src/characters/characters.service.ts:53-57 | when account, container and job id contain no `?`, cutting a pose's upload URL at `?` gives its public URL |
| Characters.ToReadUrl | src/characters/characters.service.ts:106-107 | null exactly for a null or empty column; otherwise the read URL of the value |
| Characters.StatusOf | src/characters/characters.service.ts:97-104 | `NotFound` exactly when no row has both this job id and this owner |
| Characters.StatusOfFound | src/characters/characters.service.ts:109-117 | a found job reports its stored status verbatim and each column through `toReadUrl` |
| Characters.OwnerIsolation | src/characters/characters.service.ts:98-103 | another owner's job answers exactly like a job that does not exist |
| Characters.SignedProfileUrlIsStoredBare | src/characters/characters.service.ts:56-57 | a signed URL is stored without its query |
| Characters.CharactersService.GenerateProfile | src/characters/characters.service.ts:35-48 | the upload goes to `profiles/{userId}/{uuid}.png` with the decoded image; on success the answer is a read URL for that blob, and a failed call fails with its error |
| Characters.AcceptSpec | src/characters/characters.service.ts:51-94 | the row is saved before anything is enqueued; a lost connection, a taken job id or an over-long column refuses the save and changes neither table nor queue; a saved row leaves every other row as it was, is followed by exactly its task, and the response carries the same job id and `motion_queued`; a refused enqueue leaves the saved row behind |
| Characters.CharactersService.Accept | src/characters/characters.service.ts:51-94 | the table, the queue and the response after the call are those `AcceptEffect` gives for the old table and queue, so every property of `AcceptSpec` holds of the service |
| Characters.CharactersService.GetStatus | src/characters/characters.service.ts:97-118 | the answer is the view `StatusOf` gives of the current table: `NotFound` exactly without an owned row |
| Motion.ProcessSucceeds | src/characters/motion.processor.ts:44-58 | after a successful generation the row is `done` with the four public URLs, nothing else in it changes, and the run returns normally |
| Motion.GenerationFailureMarksFailed | src/characters/motion.processor.ts:59-65 | a generation failure sets only the status to `failed` and rethrows the same error |
| Motion.DoneWriteFailureMarksFailed | src/characters/motion.processor.ts:43-65 | a refused `done` write lands in the catch: the row ends `failed` and the database error is rethrown |
| Motion.FailedWriteFailureLosesError | src/characters/motion.processor.ts:60-64 | when the `failed` write itself fails, the table is unchanged and that error replaces the original |
| Motion.MissingRowIsNoOp | src/characters/motion.processor.ts:49-50 | a task with no owned row writes nothing, and only a generation failure is thrown |
| Motion.ProcessFrame | src/characters/motion.processor.ts:60-61 | a run changes only the job's own row, never changes an owner or a profile URL, and keeps the table invariant |
| Motion.ProcessKeepsLifecycle | src/characters/entities/character-pending.entity.ts:40-51 | every run preserves "no pose URLs while processing, all four once done" |
| Motion.DoneJobCanRegress | src/characters/motion.processor.ts:59-63 | a `done` job whose retried run fails ends up `failed` |
| Motion.MotionProcessor.Process | src/characters/motion.processor.ts:38-66 | a task of another name does nothing; otherwise the generation requests go out and the table and the thrown error become what `ProcessEffect` says |
| Lifecycle.AcceptProcessPoll | src/characters/characters.service.ts:51-117 | an accepted job polls as `motion_processing` with no pose URLs; after a successful run it polls as `done` with a read URL for each pose |
| Lifecycle.AcceptedIsProcessing | src/characters/characters.service.ts:59-65 | a newly accepted job the table did not hold is saved and polls as `motion_processing` with no pose URLs |
| Lifecycle.SuccessIsPolledDone | src/characters/motion.processor.ts:49-58 | after a successful run of a job's own task the owner's poll reports `done` and a read URL for each of the four public URLs |
| Lifecycle.OthersNeverSeeTheJob | src/characters/characters.service.ts:98-103 | another user polling the job id gets `NotFound` after accept and after any run |
| Controller.CoerceSuccess | src/characters/characters.controller.ts:85-90 | true exactly for `true` or `"true"`, false exactly for `false` or `"false"` |
| Controller.CoerceSuccessRejects | src/characters/characters.controller.ts:85-93 | missing, null, `"TRUE"`, `"False"`, 1 and 0 are all undecided |
| Controller.MotionCallback | src/characters/characters.controller.ts:77-97 | missing ids give `BadRequest` first, then an undecided `success`; the call is forwarded exactly when both checks pass, with the reply `{ ok: true }` |
| Controller.MotionCallbackForwards | src/characters/characters.controller.ts:95-96 | a well-formed callback forwards its job id unchanged, its user id as a number, and the decided `success` |
| Controller.RequireUser | src/characters/characters.controller.ts:46-48 | a missing user id throws before anything else; 0 is accepted |
| Controller.CreateProfileUpload | src/characters/characters.controller.ts:40-53 | the user guard comes before the file guard; a request without `file.buffer` gives `BadRequest`; otherwise the buffer goes to `generateProfile` |
| Controller.CreateProfile | src/characters/characters.controller.ts:56-63 | after the user guard, the base64 string goes to `generateProfile` |
| Controller.Create | src/characters/characters.controller.ts:66-73 | after the user guard, the profile URL goes to `accept` |
| Controller.FindOne | src/characters/characters.controller.ts:100-110 | after the user guard, the path's job id goes to `getStatus` |
| Controller.GuardsBeforeService | src/characters/characters.controller.ts:46-51 | no authenticated handler reaches the service without a user id, and user 0 passes every guard |
| Users.FirstWithNickname | src/users/users.service.ts:21-23 | the lookup is null exactly when no user has the nickname, and otherwise a stored user with it |
| Users.FirstWithNicknameUnique | src/users/users.service.ts:21-23 | with unique nicknames the lookup finds the one user of that nickname |
| Users.UsersService.FindByNickname | src/users/users.service.ts:21-23 | null exactly when no user has the nickname |
| Users.UsersService.SignUp | src/users/users.service.ts:25-47 | a password mismatch is reported before a taken nickname, which is reported before a failed save; no error stores anything; otherwise exactly one user is appended with the hashed password and its id and nickname come back; unique nicknames are preserved |
| Users.AppendKeepsUnique | src/users/users.service.ts:30-45 | appending a user whose nickname is free keeps nicknames unique |

## Left out

- SAS token signing and `StorageSharedKeyCredential` are cryptography. The token is an uninterpreted `Signer`.
- `Date` arithmetic is replaced by milliseconds: `setMinutes` on local time, daylight-saving shifts and date bounds are not modelled.
- The 5-second mock delay is not modelled, because it has no observable effect in a sequential model.
- `Buffer.from(…, 'base64')` is an uninterpreted `Decoder`, because its lenient handling of invalid characters is library behaviour.
- `res.text()` failing while an error message is built is not modelled. The text is part of the oracle's reply.
- BullMQ delivery, retries, backoff timing and job-id deduplication are library behaviour and concurrency. Only the options passed at enqueue are recorded.
- `handleMotionCallback` and `createReadSasUrl` are called but defined nowhere, so their effects are not modelled. The read URL is a parameter, and the callback is modelled only as the call the controller makes.
- The profile request mismatch is not reconciled. The characters service passes `{ imageBuffer, uploadUrl, blobUrl }` where the client declares base64 `sourceImage`. `Characters.CharactersService.GenerateProfile` takes the call as an oracle over the request it builds, and `Ai.AiService.GenerateProfile` is modelled separately with the declared request.
- The `characterimage` field written at sign-up is not modelled. It does not match the entity's `characterImage` column.
- Authentication, the JWT guard and the `@UserId()` decorator are not modelled. The user id arrives as an optional integer.
- DTO validation rules are not modelled. They live in class-validator decorators.
- Logging, Swagger decorators, module wiring and bootstrap are not modelled.
- Concurrency is not modelled: interleaved requests, and two sign-ups racing between check and insert.
- The row's generated numeric `id` and `createdAt` are not modelled. No operation reads them.
- Controller.ToJsString: integer user and job ids only. Non-integer numbers and magnitudes of 1e21 and above, where `String` switches to exponent notation, are not modelled.
- Controller.ToJsNumber: `Number` of a string is left symbolic, because its full grammar (hex, exponents, `Infinity`) is not needed by the controller's own checks.
- CharacterStore.Inserted: the foreign key from `user_id` to the users table is not modelled, so an insert for a user id with no `users` row succeeds in the model where the database refuses it. The job table and the user table are separate in the model.
- CharacterStore.FindPending, Users.FirstWithNickname, Users.UsersService.SignUp: string keys are compared exactly, as under a binary collation. Under MySQL's default case-insensitive collation a differently cased job id would be found and a differently cased nickname would be taken; that is not modelled.
- SAS signing, `createReadSasUrl`, `handleMotionCallback` and `profileRes.arrayBuffer()` never throw in the model. A rejected `Invalid Date` expiry, a rejected callback promise and a failed body read are not modelled, so `Controller.MotionCallback` always answers `{ ok: true }` once its checks pass.
- Controller.ToJsString: JavaScript arrays are not distinguished from other objects, so `String([1])` is taken as `[object Object]` rather than `1`.
- Text.AsciiLower: only ASCII letters are lowered. The full Unicode case mapping of `toLowerCase` is not modelled.
- Text.ParseInt10: the value of a digit run is exact and unbounded. Precision loss above 2^53 is not modelled.
