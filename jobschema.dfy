/** The job record the endpoints and the table work on. Timestamps are
    integers already expressed in one time zone; the nullable fields are
    `Option`s. */
module JobSchema {
  import opened Wrappers

  datatype JobStatus = Deferred | Queued | InProgress | Complete

  /** The string value the status carries on the wire. */
  function StatusName(s: JobStatus): string
  {
    match s
    case Deferred => "deferred"
    case Queued => "queued"
    case InProgress => "in_progress"
    case Complete => "complete"
  }

  datatype Job = Job(
    id: string,
    queueName: string,
    functionName: string,
    status: JobStatus,
    success: Option<bool>,
    jobTry: Option<int>,
    enqueueTime: int,
    startTime: Option<int>,
    finishTime: Option<int>,
    executionDuration: Option<int>,
    args: string,
    kwargs: string,
    result: string)

  /** The fields a job list can be sorted by. */
  datatype SortField = ByEnqueueTime | ById | ByStatus | ByFunction | ByStartTime | ByExecutionDuration

  datatype SortOrder = Asc | Desc
}
