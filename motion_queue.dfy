/** The motion queue as the accept step sees it: an append-only list of tasks,
    each with its name, payload and the options passed to `add`. Delivery,
    retry, backoff and de-duplication belong to the queue library and are not
    modelled. */
module MotionQueue {
  import opened Wrappers
  import opened Directions

  const MotionTaskName: string := "generate-motion"

  datatype Backoff = Backoff(kind: string, delayMs: nat)

  datatype JobOptions = JobOptions(jobId: string, attempts: nat, backoff: Backoff)

  /** The task payload: the job's keys, the stored profile URL, and the upload
      and public URL of each pose. */
  datatype MotionJobData = MotionJobData(
    jobId: string,
    userId: int,
    profileUrl: string,
    uploadUrls: PerDirection<string>,
    blobUrls: PerDirection<string>)

  datatype QueuedTask = QueuedTask(name: string, data: MotionJobData, opts: JobOptions)

  /** `add` rejects when the queue's store cannot be reached. */
  datatype QueueError = QueueUnavailable

  class Queue {
    var tasks: seq<QueuedTask>

    constructor ()
      ensures tasks == []
    {
      tasks := [];
    }

    method Add(name: string, data: MotionJobData, opts: JobOptions, available: bool) returns (r: Outcome<QueueError>)
      modifies this
      ensures r.Pass? <==> available
      ensures tasks == if available then old(tasks) + [QueuedTask(name, data, opts)] else old(tasks)
    {
      if available {
        tasks := tasks + [QueuedTask(name, data, opts)];
        r := Pass;
      } else {
        r := Fail(QueueUnavailable);
      }
    }
  }
}
