/** The motion worker (src/characters/motion.processor.ts): it consumes a
    `generate-motion` task, calls the generation client, and records the
    outcome on the job's row. The two writes it makes can each fail; whether
    they do is given by the fault flags. */
module Motion {
  import opened Wrappers
  import opened Directions
  import opened CharacterEntity
  import opened CharacterStore
  import opened MotionQueue
  import Ai

  /** What `process` throws: the generation client's error or a database
      error. */
  datatype Failure = AiFailed(ai: Ai.AiError) | DbFailed(db: DbError)

  /** The state a run leaves behind: the table and what it returned or threw. */
  datatype Effect = Effect(rows: map<string, CharacterPending>, outcome: Outcome<Failure>)

  function MotionRequestOf(data: MotionJobData): Ai.MotionGenerationRequest
  {
    Ai.MotionGenerationRequest(data.profileUrl, data.uploadUrls)
  }

  /** The success write: status `done` and the four public URLs. */
  function DonePatch(data: MotionJobData): Patch
  {
    Patch(Done, Some(data.blobUrls))
  }

  /** The failure write: only the status changes. */
  const FailedPatch: Patch := Patch(Failed, None)

  /** The `catch` block: mark the row `failed` and rethrow `err`; if that
      write fails, its error is thrown instead. */
  function Settle(rows: map<string, CharacterPending>, data: MotionJobData, err: Failure, failedFault: bool): Effect
  {
    match Updated(rows, data.jobId, data.userId, FailedPatch, failedFault)
    case Ok(marked) => Effect(marked, Fail(err))
    case Err(e) => Effect(rows, Fail(DbFailed(e)))
  }

  /** `process` for a `generate-motion` task, given the outcome of the
      generation call. */
  function ProcessEffect(rows: map<string, CharacterPending>, data: MotionJobData, generation: Outcome<Ai.AiError>,
                         doneFault: bool, failedFault: bool): Effect
  {
    match generation
    case Fail(e) => Settle(rows, data, AiFailed(e), failedFault)
    case Pass =>
      match Updated(rows, data.jobId, data.userId, DonePatch(data), doneFault)
      case Ok(done) => Effect(done, Pass)
      case Err(e) => Settle(rows, data, DbFailed(e), failedFault)
  }

  /** The four public URLs fit their columns. */
  predicate BlobUrlsFit(data: MotionJobData)
  {
    forall d :: |data.blobUrls.Get(d)| <= UrlColumnLength
  }

  /** The job's row as the worker finds it. */
  predicate OwnRow(rows: map<string, CharacterPending>, data: MotionJobData)
  {
    data.jobId in rows && rows[data.jobId].userId == data.userId
  }

  /** Success: the run returns normally and the row is `done` with the four
      public URLs; nothing else in it changes. */
  lemma ProcessSucceeds(rows: map<string, CharacterPending>, data: MotionJobData, failedFault: bool)
    requires RowsValid(rows) && OwnRow(rows, data) && BlobUrlsFit(data)
    ensures var eff := ProcessEffect(rows, data, Pass, false, failedFault);
      && eff.outcome == Pass
      && eff.rows[data.jobId] == rows[data.jobId].(status := Done,
           frontUrl := Some(data.blobUrls.front), backUrl := Some(data.blobUrls.back),
           leftUrl := Some(data.blobUrls.left), rightUrl := Some(data.blobUrls.right))
      && UrlsFollowStatus(eff.rows[data.jobId])
  {
    StatusNamesFit(Done);
    assert |data.blobUrls.Get(Front)| <= UrlColumnLength && |data.blobUrls.Get(Back)| <= UrlColumnLength;
    assert |data.blobUrls.Get(Left)| <= UrlColumnLength && |data.blobUrls.Get(Right)| <= UrlColumnLength;
    assert FitsColumns(Apply(rows[data.jobId], DonePatch(data)));
  }

  /** A generation failure marks the row `failed`, keeps its URLs and rethrows
      the same error. */
  lemma GenerationFailureMarksFailed(rows: map<string, CharacterPending>, data: MotionJobData, e: Ai.AiError, doneFault: bool)
    requires RowsValid(rows) && OwnRow(rows, data)
    ensures var eff := ProcessEffect(rows, data, Fail(e), doneFault, false);
      && eff.outcome == Fail(AiFailed(e))
      && eff.rows[data.jobId] == rows[data.jobId].(status := Failed)
  {
    StatusNamesFit(Failed);
    assert FitsColumns(Apply(rows[data.jobId], FailedPatch));
  }

  /** A refused success write (unreachable database, or a URL too long for
      its column) is caught like a generation failure: the row ends `failed`
      and the database error is rethrown. */
  lemma DoneWriteFailureMarksFailed(rows: map<string, CharacterPending>, data: MotionJobData, doneFault: bool)
    requires RowsValid(rows) && OwnRow(rows, data)
    requires Updated(rows, data.jobId, data.userId, DonePatch(data), doneFault).Err?
    ensures var eff := ProcessEffect(rows, data, Pass, doneFault, false);
      && eff.outcome == Fail(DbFailed(Updated(rows, data.jobId, data.userId, DonePatch(data), doneFault).error))
      && eff.rows[data.jobId] == rows[data.jobId].(status := Failed)
  {
    StatusNamesFit(Failed);
    assert FitsColumns(Apply(rows[data.jobId], FailedPatch));
  }

  /** When the failure write itself fails, the table is left as it was and
      its error replaces the one being handled. */
  lemma FailedWriteFailureLosesError(rows: map<string, CharacterPending>, data: MotionJobData, e: Ai.AiError, doneFault: bool)
    ensures ProcessEffect(rows, data, Fail(e), doneFault, true) == Effect(rows, Fail(DbFailed(ConnectionFailed)))
  {
  }

  /** A task whose row is gone (or owned by another user) writes nothing and
      is not an error by itself: both updates match no row. */
  lemma MissingRowIsNoOp(rows: map<string, CharacterPending>, data: MotionJobData, generation: Outcome<Ai.AiError>)
    requires !OwnRow(rows, data)
    ensures var eff := ProcessEffect(rows, data, generation, false, false);
      && eff.rows == rows
      && (eff.outcome.Pass? <==> generation.Pass?)
      && (generation.Fail? ==> eff.outcome == Fail(AiFailed(generation.error)))
  {
  }

  /** A run touches the job's own row only, keeps the keys and the table
      invariant, and never changes a row's owner or profile URL. */
  lemma ProcessFrame(rows: map<string, CharacterPending>, data: MotionJobData, generation: Outcome<Ai.AiError>,
                     doneFault: bool, failedFault: bool)
    requires RowsValid(rows)
    ensures var eff := ProcessEffect(rows, data, generation, doneFault, failedFault);
      && eff.rows.Keys == rows.Keys
      && RowsValid(eff.rows)
      && (forall k :: k in rows && k != data.jobId ==> eff.rows[k] == rows[k])
      && (forall k :: k in rows ==> eff.rows[k].userId == rows[k].userId && eff.rows[k].profileUrl == rows[k].profileUrl)
      && (!OwnRow(rows, data) ==> eff.rows == rows)
  {
    var eff := ProcessEffect(rows, data, generation, doneFault, failedFault);
    var failed := Updated(rows, data.jobId, data.userId, FailedPatch, failedFault);
    var done := Updated(rows, data.jobId, data.userId, DonePatch(data), doneFault);
    UpdateFrame(rows, data, FailedPatch, failedFault);
    UpdateFrame(rows, data, DonePatch(data), doneFault);
    assert eff.rows == rows || (failed.Ok? && eff.rows == failed.value) || (done.Ok? && eff.rows == done.value);
  }

  /** One successful update of the job's row keeps the frame of `ProcessFrame`. */
  lemma UpdateFrame(rows: map<string, CharacterPending>, data: MotionJobData, patch: Patch, fault: bool)
    requires RowsValid(rows)
    ensures var u := Updated(rows, data.jobId, data.userId, patch, fault);
      u.Ok? ==>
      && u.value.Keys == rows.Keys
      && RowsValid(u.value)
      && (forall k :: k in rows && k != data.jobId ==> u.value[k] == rows[k])
      && (forall k :: k in rows ==> u.value[k].userId == rows[k].userId && u.value[k].profileUrl == rows[k].profileUrl)
      && (!OwnRow(rows, data) ==> u.value == rows)
  {
  }

  /** The lifecycle invariant survives every run: no row is left processing
      with pose URLs, and no row is `done` without all four. */
  lemma ProcessKeepsLifecycle(rows: map<string, CharacterPending>, data: MotionJobData, generation: Outcome<Ai.AiError>,
                              doneFault: bool, failedFault: bool)
    requires RowsValid(rows)
    requires forall k :: k in rows ==> UrlsFollowStatus(rows[k])
    ensures var eff := ProcessEffect(rows, data, generation, doneFault, failedFault);
      forall k :: k in eff.rows ==> UrlsFollowStatus(eff.rows[k])
  {
    var eff := ProcessEffect(rows, data, generation, doneFault, failedFault);
    ProcessFrame(rows, data, generation, doneFault, failedFault);
    if OwnRow(rows, data) {
      var row := rows[data.jobId];
      var s := eff.rows[data.jobId];
      assert s == row || s == Apply(row, FailedPatch) || s == Apply(row, DonePatch(data));
      assert UrlsFollowStatus(s);
    }
  }

  /** No status guard: a retried run of a job that is already `done` and then
      fails turns it back to `failed`. */
  lemma DoneJobCanRegress(rows: map<string, CharacterPending>, data: MotionJobData, e: Ai.AiError)
    requires RowsValid(rows) && OwnRow(rows, data) && rows[data.jobId].status == Done
    ensures ProcessEffect(rows, data, Fail(e), false, false).rows[data.jobId].status == Failed
  {
    GenerationFailureMarksFailed(rows, data, e, false);
  }

  class MotionProcessor {
    const store: JobStore
    const ai: Ai.AiService

    constructor (store: JobStore, ai: Ai.AiService)
      ensures this.store == store && this.ai == ai
    {
      this.store := store;
      this.ai := ai;
    }

    /** `process`: a task of another name is ignored; otherwise the
        generation run goes out on the HTTP client and its outcome is
        recorded as `ProcessEffect` says. */
    method Process(job: QueuedTask, doneFault: bool, failedFault: bool) returns (r: Outcome<Failure>)
      requires store.Valid()
      modifies store, ai.http
      ensures store.Valid()
      ensures job.name != MotionTaskName ==>
        r == Pass && store.rows == old(store.rows) && ai.http.trace == old(ai.http.trace)
      ensures job.name == MotionTaskName ==>
        ai.http.trace == old(ai.http.trace)
          + Ai.MotionRun(ai.baseUrl, ai.isMock, MotionRequestOf(job.data), ai.http.respond, |old(ai.http.trace)|).requests
      ensures job.name == MotionTaskName ==>
        var run := Ai.MotionRun(ai.baseUrl, ai.isMock, MotionRequestOf(job.data), ai.http.respond, |old(ai.http.trace)|);
        Effect(store.rows, r) == ProcessEffect(old(store.rows), job.data, run.outcome, doneFault, failedFault)
    {
      if job.name != MotionTaskName {
        return Pass;
      }
      var data := job.data;
      var generated := ai.GenerateMotion(MotionRequestOf(data));
      var caught: Failure;
      if generated.Pass? {
        var done := store.Update(data.jobId, data.userId, DonePatch(data), doneFault);
        if done.Pass? {
          return Pass;
        }
        caught := DbFailed(done.error);
      } else {
        caught := AiFailed(generated.error);
      }
      var marked := store.Update(data.jobId, data.userId, FailedPatch, failedFault);
      if marked.Fail? {
        return Fail(DbFailed(marked.error));
      }
      r := Fail(caught);
    }
  }
}
