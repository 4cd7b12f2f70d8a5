/** The characters service (src/characters/characters.service.ts): the
    synchronous profile step, the accept step that records a job and enqueues
    its motion task, and the owner-scoped status query. `randomUUID` is a
    parameter, the clock is `nowMs`, and the read-credential issuer
    (`createReadSasUrl`, whose definition is not part of this model) is the
    function `readUrl`. */
module Characters {
  import opened Wrappers
  import opened Text
  import opened Directions
  import opened DataUrl
  import opened CharacterEntity
  import opened CharacterStore
  import opened MotionQueue
  import opened Azure
  import Ai

  /** The status `accept` reports; it is not one of the stored statuses. */
  const QueuedStatus: string := "motion_queued"
  const MotionAttempts: nat := 3
  const MotionBackoff: Backoff := Backoff("exponential", 10000)

  lemma QueuedStatusIsNotStored()
    ensures ParseStatus(QueuedStatus) == None
  {
  }

  /** `Buffer | string`. */
  datatype ImageInput = BufferImage(bytes: Bytes) | TextImage(text: string)

  /** `replace(/^data:image\/[^;]+;base64,/, '')`: a leading header is cut off,
      even when nothing follows it. */
  function StripDataUrlPrefix(s: string): string
  {
    match MimeType(s)
    case None => s
    case Some(m) => Payload(s, m)
  }

  /** `toImageBuffer`: a buffer passes through; a string loses one leading
      data-URL header and is then base64-decoded. */
  function ToImageBuffer(image: ImageInput, decode: Decoder): Bytes
  {
    match image
    case BufferImage(b) => b
    case TextImage(s) => decode(StripDataUrlPrefix(s))
  }

  lemma ToImageBufferSpec(image: ImageInput, decode: Decoder, mime: string, payload: string)
    ensures image.BufferImage? ==> ToImageBuffer(image, decode) == image.bytes
    ensures image.TextImage? && MimeType(image.text).None? ==> ToImageBuffer(image, decode) == decode(image.text)
    ensures |mime| >= 1 && ';' !in mime ==>
      ToImageBuffer(TextImage(Header(mime) + payload), decode) == decode(payload)
  {
    if |mime| >= 1 && ';' !in mime {
      MimeTypeOfHeader(mime, payload);
      assert Payload(Header(mime) + payload, mime) == payload;
    }
  }

  /** The two strippers disagree on a header with nothing after it: this one
      leaves the empty string, the generation client's leaves the input. */
  lemma StripsDisagreeOnEmptyPayload(mime: string)
    requires |mime| >= 1 && ';' !in mime
    ensures StripDataUrlPrefix(Header(mime)) == ""
    ensures Ai.StripBase64Prefix(Header(mime)) == Header(mime)
  {
    assert Header(mime) + "" == Header(mime);
    MimeTypeOfHeader(mime, "");
    Ai.StripBase64PrefixOfDataUrl(mime, "");
  }

  /** `profiles/{userId}/{uuid}.png`. */
  function ProfilePath(userId: int, uuid: string): string
  {
    "profiles/" + IntToString(userId) + "/" + uuid + ".png"
  }

  /** `motion/{userId}/{jobId}`. */
  function MotionPrefix(userId: int, jobId: string): string
  {
    "motion/" + IntToString(userId) + "/" + jobId
  }

  /** What the service hands the generation client for a profile. */
  datatype ProfileCall = ProfileCall(imageBuffer: Bytes, uploadUrl: string, blobUrl: string)

  /** The awaited generation call; its success is not decided here. */
  type ProfileGenerator = ProfileCall -> Outcome<Ai.AiError>

  /** The read-credential issuer. */
  type ReadUrl = string -> string

  datatype ServiceError =
    | NotFound
    | StoreFailed(db: DbError)
    | QueueFailed(queue: QueueError)
    | GenerationFailed(ai: Ai.AiError)

  datatype AcceptResponse = AcceptResponse(jobId: string, status: string)

  datatype StatusView = StatusView(
    jobId: string,
    status: string,
    profileUrl: Option<string>,
    frontUrl: Option<string>,
    backUrl: Option<string>,
    leftUrl: Option<string>,
    rightUrl: Option<string>)

  /** The profile call `generateProfile` makes. */
  function ProfileCallFor(storage: AzureStorageService, userId: int, image: ImageInput, uuid: string,
                          nowMs: int, sign: Signer, decode: Decoder): ProfileCall
  {
    var urls := storage.CreateUploadSasUrl(ProfilePath(userId, uuid), nowMs, sign);
    ProfileCall(ToImageBuffer(image, decode), urls.uploadUrl, urls.blobUrl)
  }

  /** The row `accept` saves: the profile URL cut at its first `?`, status
      `motion_processing`, no pose URLs. */
  function PendingRow(jobId: string, userId: int, profileUrl: string): CharacterPending
  {
    NewPending(jobId, userId, BeforeFirst(profileUrl, '?'))
  }

  /** The task `accept` enqueues. */
  function MotionTask(storage: AzureStorageService, userId: int, jobId: string, profileUrl: string,
                      nowMs: int, sign: Signer): QueuedTask
  {
    var urls := storage.CreateCharacterUploadSasUrls(MotionPrefix(userId, jobId), nowMs, sign);
    QueuedTask(
      MotionTaskName,
      MotionJobData(
        jobId, userId, BeforeFirst(profileUrl, '?'),
        PerDirection(urls.front.uploadUrl, urls.back.uploadUrl, urls.left.uploadUrl, urls.right.uploadUrl),
        PerDirection(urls.front.blobUrl, urls.back.blobUrl, urls.left.blobUrl, urls.right.blobUrl)),
      JobOptions(jobId, MotionAttempts, MotionBackoff))
  }

  /** The stored row: the caller's job and owner, status `motion_processing`,
      no pose URLs yet, and a profile URL without its query: one without `?`
      is kept as it is. */
  lemma PendingRowSpec(jobId: string, userId: int, profileUrl: string)
    ensures var row := PendingRow(jobId, userId, profileUrl);
      && row.jobId == jobId && row.userId == userId && row.status == MotionProcessing
      && '?' !in row.profileUrl && row.profileUrl == profileUrl[..|row.profileUrl|]
      && ('?' !in profileUrl ==> row.profileUrl == profileUrl)
      && UrlsFollowStatus(row)
  {
  }

  /** The task carries the row's job, owner and stored profile URL; its queue
      job id is the job id; three attempts with exponential backoff from 10 s;
      the public URL of each pose is that of
      `motion/{userId}/{jobId}/{pose}.png`, the four pairwise distinct; and
      each upload URL is its public URL plus a query. */
  lemma MotionTaskSpec(storage: AzureStorageService, userId: int, jobId: string, profileUrl: string,
                       nowMs: int, sign: Signer)
    ensures var t := MotionTask(storage, userId, jobId, profileUrl, nowMs, sign);
      var row := PendingRow(jobId, userId, profileUrl);
      && t.name == MotionTaskName
      && t.data.jobId == row.jobId && t.data.userId == row.userId && t.data.profileUrl == row.profileUrl
      && t.opts == JobOptions(jobId, 3, Backoff("exponential", 10000))
      && (forall d :: t.data.blobUrls.Get(d) == storage.BlobUrl(MotionPrefix(userId, jobId) + "/" + FileName(d)))
      && (forall d :: storage.CreateUploadSasUrl(MotionPrefix(userId, jobId) + "/" + FileName(d), nowMs, sign)
                        == UploadSasUrl(t.data.uploadUrls.Get(d), t.data.blobUrls.Get(d)))
      && (forall d1, d2 :: d1 != d2 ==> t.data.blobUrls.Get(d1) != t.data.blobUrls.Get(d2))
  {
    var urls := storage.CreateCharacterUploadSasUrls(MotionPrefix(userId, jobId), nowMs, sign);
    var t := MotionTask(storage, userId, jobId, profileUrl, nowMs, sign);
    assert forall d :: t.data.blobUrls.Get(d) == urls.Get(d).blobUrl && t.data.uploadUrls.Get(d) == urls.Get(d).uploadUrl;
  }

  lemma MotionPathIsPlain(userId: int, jobId: string, d: Direction)
    requires '?' !in jobId
    ensures '?' !in MotionPrefix(userId, jobId) + "/" + FileName(d)
  {
    IntToStringPlain(userId);
    FileNameIsPlain(d);
    assert '?' !in "motion/" by {
      var m := "motion/";
      forall k | 0 <= k < |m| ensures m[k] != '?' {
      }
    }
    assert '?' !in "/";
  }

  /** When the account, the container and the job id hold no `?`, cutting a
      pose's upload URL at its first `?` gives its public URL: the round trip
      `accept` relies on when it stores URLs. */
  lemma MotionUploadRoundTrip(storage: AzureStorageService, userId: int, jobId: string, profileUrl: string,
                              nowMs: int, sign: Signer, d: Direction)
    requires '?' !in storage.accountName && '?' !in storage.containerName && '?' !in jobId
    ensures var t := MotionTask(storage, userId, jobId, profileUrl, nowMs, sign);
      BeforeFirst(t.data.uploadUrls.Get(d), '?') == t.data.blobUrls.Get(d)
  {
    var urls := storage.CreateCharacterUploadSasUrls(MotionPrefix(userId, jobId), nowMs, sign);
    var t := MotionTask(storage, userId, jobId, profileUrl, nowMs, sign);
    assert t.data.blobUrls.Get(d) == urls.Get(d).blobUrl && t.data.uploadUrls.Get(d) == urls.Get(d).uploadUrl;
    var path := MotionPrefix(userId, jobId) + "/" + FileName(d);
    MotionPathIsPlain(userId, jobId, d);
    storage.ContainerUrlIsPlain();
    var u := storage.CreateUploadSasUrl(path, nowMs, sign);
    assert u.blobUrl == storage.ContainerUrl() + path;
  }

  /** `toReadUrl`: a null or empty column gives null (JavaScript
      truthiness); any other value is turned into a read URL. */
  function ToReadUrl(url: Option<string>, readUrl: ReadUrl): (r: Option<string>)
    ensures r.None? <==> url.None? || url.value == ""
    ensures r.Some? ==> r.value == readUrl(url.value)
  {
    if url.Some? && url.value != "" then Some(readUrl(url.value)) else None
  }

  /** `getStatus` on a table. */
  function StatusOf(rows: map<string, CharacterPending>, jobId: string, userId: int, readUrl: ReadUrl): (r: Result<StatusView, ServiceError>)
    ensures r.Err? <==> !(jobId in rows && rows[jobId].userId == userId)
    ensures r.Err? ==> r.error == NotFound
  {
    match FindPending(rows, jobId, userId)
    case None => Err(NotFound)
    case Some(p) =>
      Ok(StatusView(jobId, StatusName(p.status), ToReadUrl(Some(p.profileUrl), readUrl),
        ToReadUrl(p.frontUrl, readUrl), ToReadUrl(p.backUrl, readUrl),
        ToReadUrl(p.leftUrl, readUrl), ToReadUrl(p.rightUrl, readUrl)))
  }

  /** A found job reports its stored status verbatim and each URL column
      through `toReadUrl`. */
  lemma StatusOfFound(rows: map<string, CharacterPending>, jobId: string, userId: int, readUrl: ReadUrl)
    requires jobId in rows && rows[jobId].userId == userId
    ensures var r := StatusOf(rows, jobId, userId, readUrl); var p := rows[jobId];
      && r.Ok? && r.value.jobId == jobId
      && ParseStatus(r.value.status) == Some(p.status)
      && r.value.profileUrl == ToReadUrl(Some(p.profileUrl), readUrl)
      && r.value.frontUrl == ToReadUrl(p.frontUrl, readUrl) && r.value.backUrl == ToReadUrl(p.backUrl, readUrl)
      && r.value.leftUrl == ToReadUrl(p.leftUrl, readUrl) && r.value.rightUrl == ToReadUrl(p.rightUrl, readUrl)
  {
    StatusRoundTrip(rows[jobId].status);
  }

  /** Another owner's job answers exactly like a job that does not exist. */
  lemma OwnerIsolation(rows: map<string, CharacterPending>, jobId: string, other: int, readUrl: ReadUrl)
    requires jobId in rows && rows[jobId].userId != other
    ensures StatusOf(rows, jobId, other, readUrl) == StatusOf(rows - {jobId}, jobId, other, readUrl) == Err(NotFound)
  {
  }

  /** The table, the queue and the response after `accept`. */
  datatype AcceptState = AcceptState(
    rows: map<string, CharacterPending>,
    tasks: seq<QueuedTask>,
    response: Result<AcceptResponse, ServiceError>)

  /** `accept` on a table and a queue: save the row, then enqueue its task. */
  function AcceptEffect(rows: map<string, CharacterPending>, tasks: seq<QueuedTask>, storage: AzureStorageService,
                        sign: Signer, userId: int, profileUrl: string, jobId: string, nowMs: int,
                        saveFault: bool, queueAvailable: bool): AcceptState
  {
    match Inserted(rows, PendingRow(jobId, userId, profileUrl), saveFault)
    case Err(e) => AcceptState(rows, tasks, Err(StoreFailed(e)))
    case Ok(saved) =>
      if queueAvailable then
        AcceptState(saved, tasks + [MotionTask(storage, userId, jobId, profileUrl, nowMs, sign)],
          Ok(AcceptResponse(jobId, QueuedStatus)))
      else AcceptState(saved, tasks, Err(QueueFailed(QueueUnavailable)))
  }

  /** The row is saved before anything is enqueued: a refused save (a lost
      connection, a taken job id or an overlong column) changes neither the
      table nor the queue. A saved row is followed by exactly its
      task, and the response carries the same job id. A refused enqueue
      leaves the saved row behind. */
  lemma AcceptSpec(rows: map<string, CharacterPending>, tasks: seq<QueuedTask>, storage: AzureStorageService,
                   sign: Signer, userId: int, profileUrl: string, jobId: string, nowMs: int,
                   saveFault: bool, queueAvailable: bool)
    requires RowsValid(rows)
    ensures var a := AcceptEffect(rows, tasks, storage, sign, userId, profileUrl, jobId, nowMs, saveFault, queueAvailable);
      var row := PendingRow(jobId, userId, profileUrl);
      && RowsValid(a.rows)
      && (a.response.Err? && a.response.error.StoreFailed? <==> saveFault || jobId in rows || !FitsColumns(row))
      && (saveFault ==> a.response == Err(StoreFailed(ConnectionFailed)))
      && (!saveFault && jobId in rows ==> a.response == Err(StoreFailed(DuplicateJobId)))
      && (a.response.Err? && a.response.error.StoreFailed? ==> a.rows == rows && a.tasks == tasks)
      && (!(a.response.Err? && a.response.error.StoreFailed?) ==>
            && a.rows.Keys == rows.Keys + {jobId} && a.rows[jobId] == row
            && (forall k :: k in rows ==> a.rows[k] == rows[k])
            && (a.response.Ok? <==> queueAvailable))
      && (a.response.Ok? ==>
            a.response.value == AcceptResponse(jobId, QueuedStatus)
            && a.tasks == tasks + [MotionTask(storage, userId, jobId, profileUrl, nowMs, sign)]
            && a.tasks[|tasks|].data.jobId == a.rows[jobId].jobId)
      && (!a.response.Ok? ==> a.tasks == tasks)
  {
    PendingRowSpec(jobId, userId, profileUrl);
    MotionTaskSpec(storage, userId, jobId, profileUrl, nowMs, sign);
  }

  class CharactersService {
    const store: JobStore
    const queue: Queue
    const storage: AzureStorageService
    const sign: Signer
    const readUrl: ReadUrl

    constructor (store: JobStore, queue: Queue, storage: AzureStorageService, sign: Signer, readUrl: ReadUrl)
      ensures this.store == store && this.queue == queue && this.storage == storage
      ensures this.sign == sign && this.readUrl == readUrl
    {
      this.store := store;
      this.queue := queue;
      this.storage := storage;
      this.sign := sign;
      this.readUrl := readUrl;
    }

    /** `generateProfile`: uploads go to `profiles/{userId}/{uuid}.png`, the
        generation client gets the decoded image with that blob's upload and
        public URL, and a successful call answers with a read URL for the
        public one; a failed call fails with its error. */
    method GenerateProfile(userId: int, image: ImageInput, uuid: string, nowMs: int, decode: Decoder,
                           generate: ProfileGenerator) returns (r: Result<string, ServiceError>)
      ensures var call := ProfileCallFor(storage, userId, image, uuid, nowMs, sign, decode);
        && storage.BlobPathOf(call.blobUrl) == Some(ProfilePath(userId, uuid))
        && call.imageBuffer == ToImageBuffer(image, decode)
        && (r.Ok? <==> generate(call).Pass?)
        && (r.Ok? ==> r.value == readUrl(call.blobUrl))
        && (r.Err? ==> r.error == GenerationFailed(generate(call).error))
    {
      var imageBuffer := ToImageBuffer(image, decode);
      var blobPath := ProfilePath(userId, uuid);
      var urls := storage.CreateUploadSasUrl(blobPath, nowMs, sign);
      var outcome := generate(ProfileCall(imageBuffer, urls.uploadUrl, urls.blobUrl));
      if outcome.Fail? {
        return Err(GenerationFailed(outcome.error));
      }
      r := Ok(readUrl(urls.blobUrl));
    }

    /** `accept`: the table, the queue and the response become what
        `AcceptEffect` says. */
    method Accept(userId: int, profileUrl: string, jobId: string, nowMs: int, saveFault: bool, queueAvailable: bool)
      returns (r: Result<AcceptResponse, ServiceError>)
      requires store.Valid()
      modifies store, queue
      ensures store.Valid()
      ensures store.rows
        == AcceptEffect(old(store.rows), old(queue.tasks), storage, sign, userId, profileUrl, jobId, nowMs, saveFault, queueAvailable).rows
      ensures queue.tasks
        == AcceptEffect(old(store.rows), old(queue.tasks), storage, sign, userId, profileUrl, jobId, nowMs, saveFault, queueAvailable).tasks
      ensures r
        == AcceptEffect(old(store.rows), old(queue.tasks), storage, sign, userId, profileUrl, jobId, nowMs, saveFault, queueAvailable).response
    {
      var task := MotionTask(storage, userId, jobId, profileUrl, nowMs, sign);
      var row := PendingRow(jobId, userId, profileUrl);
      var saved := store.Save(row, saveFault);
      if saved.Fail? {
        return Err(StoreFailed(saved.error));
      }
      ghost var savedRows := store.rows;
      assert savedRows == Inserted(old(store.rows), row, saveFault).value;
      var added := queue.Add(task.name, task.data, task.opts, queueAvailable);
      assert QueuedTask(task.name, task.data, task.opts) == task;
      assert store.rows == savedRows;
      ghost var effect := AcceptEffect(old(store.rows), old(queue.tasks), storage, sign, userId, profileUrl, jobId, nowMs, saveFault, queueAvailable);
      assert Inserted(old(store.rows), row, saveFault).Ok?;
      if added.Fail? {
        assert !queueAvailable;
        assert effect.response == Err(QueueFailed(QueueUnavailable));
        return Err(QueueFailed(QueueUnavailable));
      }
      assert queueAvailable;
      assert effect.response == Ok(AcceptResponse(jobId, QueuedStatus));
      r := Ok(AcceptResponse(jobId, QueuedStatus));
    }

    /** `getStatus`: `NotFound` unless a row has both this job id and this
        owner; otherwise the view of that row. */
    method GetStatus(userId: int, jobId: string) returns (r: Result<StatusView, ServiceError>)
      ensures r.Err? <==> !(jobId in store.rows && store.rows[jobId].userId == userId)
      ensures r.Err? ==> r.error == NotFound
      ensures r == StatusOf(store.rows, jobId, userId, readUrl)
    {
      var pending := store.FindOne(jobId, userId);
      if pending.None? {
        return Err(NotFound);
      }
      r := StatusOf(store.rows, jobId, userId, readUrl);
    }
  }

  /** Scenario: a signed profile URL is stored without its query. */
  lemma SignedProfileUrlIsStoredBare()
    ensures PendingRow("j", 1, "https://x/container/p.png?sig=abc").profileUrl == "https://x/container/p.png"
  {
    BeforeFirstOfJoin("https://x/container/p.png", '?', "sig=abc");
    assert "https://x/container/p.png?sig=abc" == "https://x/container/p.png" + ['?'] + "sig=abc";
  }
}
