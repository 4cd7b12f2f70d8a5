/** The `character_pending` repository: a table keyed by the unique `jobId`.
    Reads and writes are scoped by the pair (`jobId`, `userId`). */
module CharacterStore {
  import opened Wrappers
  import opened Directions
  import opened CharacterEntity

  /** How a write can fail: the unique `job_id` is taken, a value is longer
      than its column, or the database cannot be reached. */
  datatype DbError = DuplicateJobId | DataTooLong | ConnectionFailed

  /** A partial update: the new status and, for `done`, the four pose URLs. */
  datatype Patch = Patch(status: Status, poseUrls: Option<PerDirection<string>>)

  function Apply(row: CharacterPending, patch: Patch): CharacterPending
  {
    match patch.poseUrls
    case None => row.(status := patch.status)
    case Some(u) =>
      row.(status := patch.status, frontUrl := Some(u.front), backUrl := Some(u.back),
           leftUrl := Some(u.left), rightUrl := Some(u.right))
  }

  /** The table invariant the database keeps: a row is stored under its own
      `jobId` and fits its columns. */
  ghost predicate RowsValid(rows: map<string, CharacterPending>)
  {
    forall k :: k in rows ==> rows[k].jobId == k && FitsColumns(rows[k])
  }

  /** `findOne({ where: { jobId, userId } })`: a row owned by someone else is
      not found, exactly like a missing one. */
  function FindPending(rows: map<string, CharacterPending>, jobId: string, userId: int): (r: Option<CharacterPending>)
    ensures r.Some? <==> jobId in rows && rows[jobId].userId == userId
    ensures r.Some? ==> r.value == rows[jobId]
  {
    if jobId in rows && rows[jobId].userId == userId then Some(rows[jobId]) else None
  }

  /** `save` of a new row: an insert that a lost connection, the unique key
      and the column lengths can refuse. */
  function Inserted(rows: map<string, CharacterPending>, row: CharacterPending, fault: bool)
    : (r: Result<map<string, CharacterPending>, DbError>)
    ensures fault ==> r == Err(ConnectionFailed)
    ensures r.Ok? <==> !fault && row.jobId !in rows && FitsColumns(row)
    ensures r.Err? && !fault && row.jobId in rows ==> r.error == DuplicateJobId
    ensures r.Ok? ==> r.value.Keys == rows.Keys + {row.jobId} && r.value[row.jobId] == row
    ensures r.Ok? ==> forall k :: k in rows ==> r.value[k] == rows[k]
    ensures r.Ok? && RowsValid(rows) ==> RowsValid(r.value)
  {
    if fault then Err(ConnectionFailed)
    else if row.jobId in rows then Err(DuplicateJobId)
    else if !FitsColumns(row) then Err(DataTooLong)
    else Ok(rows[row.jobId := row])
  }

  /** `update({ jobId, userId }, patch)`: the row with both keys gets the patch
      whatever its current status; no matching row is no change and no error. */
  function Updated(rows: map<string, CharacterPending>, jobId: string, userId: int, patch: Patch, fault: bool)
    : (r: Result<map<string, CharacterPending>, DbError>)
    ensures fault ==> r == Err(ConnectionFailed)
    ensures FindPending(rows, jobId, userId).None? && !fault ==> r == Ok(rows)
    ensures r.Err? <==> fault || (FindPending(rows, jobId, userId).Some? && !FitsColumns(Apply(rows[jobId], patch)))
    ensures r.Ok? ==> r.value.Keys == rows.Keys
    ensures r.Ok? ==> forall k :: k in rows && (k != jobId || rows[k].userId != userId) ==> r.value[k] == rows[k]
    ensures r.Ok? && FindPending(rows, jobId, userId).Some? ==> r.value[jobId] == Apply(rows[jobId], patch)
    ensures r.Ok? && RowsValid(rows) ==> RowsValid(r.value)
  {
    if fault then Err(ConnectionFailed)
    else match FindPending(rows, jobId, userId)
      case None => Ok(rows)
      case Some(row) =>
        var row' := Apply(row, patch);
        if !FitsColumns(row') then Err(DataTooLong) else Ok(rows[jobId := row'])
  }

  /** No status is checked before a write: a `done` job patched to `failed`
      becomes `failed`. */
  lemma UpdateOverwritesTerminal(rows: map<string, CharacterPending>, jobId: string, userId: int)
    requires jobId in rows && rows[jobId].userId == userId && rows[jobId].status == Done
    requires FitsColumns(rows[jobId])
    ensures Updated(rows, jobId, userId, Patch(Failed, None), false).Ok?
    ensures Updated(rows, jobId, userId, Patch(Failed, None), false).value[jobId].status == Failed
  {
    assert Apply(rows[jobId], Patch(Failed, None)) == rows[jobId].(status := Failed);
  }

  class JobStore {
    var rows: map<string, CharacterPending>

    ghost predicate Valid()
      reads this
    {
      RowsValid(rows)
    }

    constructor ()
      ensures Valid() && rows == map[]
    {
      rows := map[];
    }

    method FindOne(jobId: string, userId: int) returns (r: Option<CharacterPending>)
      ensures r.Some? <==> jobId in rows && rows[jobId].userId == userId
      ensures r.Some? ==> r.value == rows[jobId]
    {
      r := FindPending(rows, jobId, userId);
    }

    method Save(row: CharacterPending, fault: bool) returns (r: Outcome<DbError>)
      requires Valid()
      modifies this
      ensures Valid()
      ensures r.Pass? <==> Inserted(old(rows), row, fault).Ok?
      ensures rows == if r.Pass? then Inserted(old(rows), row, fault).value else old(rows)
      ensures r.Fail? ==> r.error == Inserted(old(rows), row, fault).error
    {
      match Inserted(rows, row, fault)
      case Ok(rows') =>
        rows := rows';
        r := Pass;
      case Err(e) =>
        r := Fail(e);
    }

    method Update(jobId: string, userId: int, patch: Patch, fault: bool) returns (r: Outcome<DbError>)
      requires Valid()
      modifies this
      ensures Valid()
      ensures r.Pass? <==> Updated(old(rows), jobId, userId, patch, fault).Ok?
      ensures rows == if r.Pass? then Updated(old(rows), jobId, userId, patch, fault).value else old(rows)
      ensures r.Fail? ==> r.error == Updated(old(rows), jobId, userId, patch, fault).error
    {
      match Updated(rows, jobId, userId, patch, fault)
      case Ok(rows') =>
        rows := rows';
        r := Pass;
      case Err(e) =>
        r := Fail(e);
    }
  }
}
