/** The `character_pending` row (src/characters/entities/character-pending.entity.ts)
    and its status enumeration (src/characters/constants/character-status.enum.ts). */
module CharacterEntity {
  import opened Wrappers
  import opened Directions

  datatype Status = MotionProcessing | Done | Failed

  /** The string stored in the `status` column. */
  function StatusName(s: Status): string
  {
    match s
    case MotionProcessing => "motion_processing"
    case Done => "done"
    case Failed => "failed"
  }

  /** Reading the `status` column back. */
  function ParseStatus(name: string): (r: Option<Status>)
    ensures r.Some? ==> StatusName(r.value) == name
  {
    if name == "motion_processing" then Some(MotionProcessing)
    else if name == "done" then Some(Done)
    else if name == "failed" then Some(Failed)
    else None
  }

  /** Every status is written as its own string and reads back as itself. */
  lemma StatusRoundTrip(s: Status)
    ensures ParseStatus(StatusName(s)) == Some(s)
  {
  }

  const StatusColumnLength: nat := 32
  const UrlColumnLength: nat := 1024

  /** Every status string fits the `varchar(32)` column. */
  lemma StatusNamesFit(s: Status)
    ensures |StatusName(s)| <= StatusColumnLength
  {
  }

  /** One pending motion job. `jobId` is the unique key; the four pose URLs
      are nullable columns. The surrogate `id` and `createdAt` columns are
      assigned by the database and are not part of this model. */
  datatype CharacterPending = CharacterPending(
    jobId: string,
    userId: int,
    status: Status,
    profileUrl: string,
    frontUrl: Option<string>,
    backUrl: Option<string>,
    leftUrl: Option<string>,
    rightUrl: Option<string>)
  {
    /** The four pose URL columns, in pose order. */
    function PoseUrls(): PerDirection<Option<string>>
    {
      PerDirection(frontUrl, backUrl, leftUrl, rightUrl)
    }
  }

  /** The row `repository.create` builds from the given columns: the pose URL
      columns start out null and the status has its column default. */
  function NewPending(jobId: string, userId: int, profileUrl: string): (row: CharacterPending)
    ensures row.jobId == jobId && row.userId == userId && row.profileUrl == profileUrl
    ensures row.status == MotionProcessing
    ensures forall d :: row.PoseUrls().Get(d).None?
  {
    CharacterPending(jobId, userId, MotionProcessing, profileUrl, None, None, None, None)
  }

  predicate UrlFits(url: Option<string>)
  {
    url.Some? ==> |url.value| <= UrlColumnLength
  }

  /** The row satisfies its column lengths (a strict-mode database rejects
      any value that does not). */
  predicate FitsColumns(row: CharacterPending)
  {
    && |StatusName(row.status)| <= StatusColumnLength
    && |row.profileUrl| <= UrlColumnLength
    && UrlFits(row.frontUrl) && UrlFits(row.backUrl) && UrlFits(row.leftUrl) && UrlFits(row.rightUrl)
  }

  /** The pose URLs are filled exactly when the job has reached `done`, and a
      job still processing holds none of them. A failed job keeps whatever it
      had. */
  predicate UrlsFollowStatus(row: CharacterPending)
  {
    && (row.status == MotionProcessing ==> forall d :: row.PoseUrls().Get(d).None?)
    && (row.status == Done ==> forall d :: row.PoseUrls().Get(d).Some?)
  }
}
