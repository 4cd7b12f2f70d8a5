/** The job lifecycle across the three steps: `accept` saves a pending row
    and its task, the worker processes the task, and the owner polls. */
module Lifecycle {
  import opened Wrappers
  import opened Directions
  import opened CharacterEntity
  import opened CharacterStore
  import opened MotionQueue
  import opened Azure
  import opened Characters
  import opened Motion
  import Ai

  /** A job accepted into a table without its id is saved and reported as
      `motion_processing` with no pose URLs; after a successful run of its
      task the owner's poll reports `done` and a read URL for each pose's
      public URL. */
  lemma AcceptProcessPoll(storage: AzureStorageService, userId: int, jobId: string, profileUrl: string,
                          nowMs: int, sign: Signer, readUrl: ReadUrl, rows: map<string, CharacterPending>)
    requires RowsValid(rows) && jobId !in rows
    requires |profileUrl| <= UrlColumnLength
    requires BlobUrlsFit(MotionTask(storage, userId, jobId, profileUrl, nowMs, sign).data)
    ensures var saved := Inserted(rows, PendingRow(jobId, userId, profileUrl), false);
      && saved.Ok?
      && var before := StatusOf(saved.value, jobId, userId, readUrl);
      && before.Ok? && before.value.status == "motion_processing"
      && before.value.frontUrl == before.value.backUrl == before.value.leftUrl == before.value.rightUrl == None
    ensures var saved := Inserted(rows, PendingRow(jobId, userId, profileUrl), false).value;
      var t := MotionTask(storage, userId, jobId, profileUrl, nowMs, sign);
      var eff := ProcessEffect(saved, t.data, Pass, false, false);
      var after := StatusOf(eff.rows, jobId, userId, readUrl);
      && eff.outcome == Pass
      && after.Ok? && after.value.status == "done"
      && after.value.frontUrl == Some(readUrl(t.data.blobUrls.front))
      && after.value.backUrl == Some(readUrl(t.data.blobUrls.back))
      && after.value.leftUrl == Some(readUrl(t.data.blobUrls.left))
      && after.value.rightUrl == Some(readUrl(t.data.blobUrls.right))
  {
    AcceptedIsProcessing(rows, jobId, userId, profileUrl, readUrl);
    var saved := Inserted(rows, PendingRow(jobId, userId, profileUrl), false).value;
    var t := MotionTask(storage, userId, jobId, profileUrl, nowMs, sign);
    MotionTaskSpec(storage, userId, jobId, profileUrl, nowMs, sign);
    assert t.data.jobId == jobId && t.data.userId == userId;
    forall d ensures t.data.blobUrls.Get(d) != "" {
      var b := storage.BlobUrl(MotionPrefix(userId, jobId) + "/" + FileName(d));
      assert b[0] == 'h';
    }
    SuccessIsPolledDone(saved, t.data, readUrl);
  }

  /** Right after `accept` the owner's poll reports `motion_processing` and
      no pose URLs. */
  lemma AcceptedIsProcessing(rows: map<string, CharacterPending>, jobId: string, userId: int, profileUrl: string,
                             readUrl: ReadUrl)
    requires RowsValid(rows) && jobId !in rows
    requires |profileUrl| <= UrlColumnLength
    ensures var saved := Inserted(rows, PendingRow(jobId, userId, profileUrl), false);
      && saved.Ok?
      && var before := StatusOf(saved.value, jobId, userId, readUrl);
      && before.Ok? && before.value.status == "motion_processing"
      && before.value.frontUrl == before.value.backUrl == before.value.leftUrl == before.value.rightUrl == None
  {
    var row := PendingRow(jobId, userId, profileUrl);
    PendingRowSpec(jobId, userId, profileUrl);
    StatusNamesFit(MotionProcessing);
    assert FitsColumns(row);
  }

  /** After a successful run of a job's task the owner's poll reports `done`
      and a read URL for each non-empty public URL the task carried. */
  lemma SuccessIsPolledDone(rows: map<string, CharacterPending>, data: MotionJobData, readUrl: ReadUrl)
    requires RowsValid(rows) && OwnRow(rows, data) && BlobUrlsFit(data)
    requires forall d :: data.blobUrls.Get(d) != ""
    ensures var eff := ProcessEffect(rows, data, Pass, false, false);
      var after := StatusOf(eff.rows, data.jobId, data.userId, readUrl);
      && eff.outcome == Pass
      && after.Ok? && after.value.status == "done"
      && after.value.frontUrl == Some(readUrl(data.blobUrls.front))
      && after.value.backUrl == Some(readUrl(data.blobUrls.back))
      && after.value.leftUrl == Some(readUrl(data.blobUrls.left))
      && after.value.rightUrl == Some(readUrl(data.blobUrls.right))
  {
    ProcessSucceeds(rows, data, false);
    assert data.blobUrls.front == data.blobUrls.Get(Front);
    assert data.blobUrls.back == data.blobUrls.Get(Back);
    assert data.blobUrls.left == data.blobUrls.Get(Left);
    assert data.blobUrls.right == data.blobUrls.Get(Right);
  }

  /** Throughout, another user polling the job id is told it does not
      exist: after `accept` and after any run of any task. */
  lemma OthersNeverSeeTheJob(userId: int, other: int, jobId: string, profileUrl: string, readUrl: ReadUrl,
                             rows: map<string, CharacterPending>, data: MotionJobData,
                             generation: Outcome<Ai.AiError>, doneFault: bool, failedFault: bool)
    requires RowsValid(rows) && other != userId
    requires Inserted(rows, PendingRow(jobId, userId, profileUrl), false).Ok?
    ensures var saved := Inserted(rows, PendingRow(jobId, userId, profileUrl), false).value;
      var eff := ProcessEffect(saved, data, generation, doneFault, failedFault);
      StatusOf(saved, jobId, other, readUrl) == StatusOf(eff.rows, jobId, other, readUrl) == Err(NotFound)
  {
    var saved := Inserted(rows, PendingRow(jobId, userId, profileUrl), false).value;
    ProcessFrame(saved, data, generation, doneFault, failedFault);
  }
}
