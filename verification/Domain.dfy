/** The entities the API and the worker share: batch rows, status vocabularies and the
    per-batch directory on the shared volume. */
module Domain {
  import opened Wrappers
  import opened Predictor

  type BatchId = string
  type JobId = string

  datatype Status = Queued | InProgress | Completed | Failed | Cancelled {
    /** Member of `TERMINAL_STATUSES`. */
    predicate Terminal() {
      Completed? || Failed? || Cancelled?
    }

    /** queued, then in_progress, then any terminal status. */
    function Rank(): nat {
      if Queued? then 0 else if InProgress? then 1 else 2
    }
  }

  /** What Ray's Jobs API answers; `Unrecognized` stands for any value of a future version. */
  datatype RayStatus = Pending | Running | Succeeded | RayFailed | Stopped | Unrecognized(raw: string) {
    predicate Ended() {
      Succeeded? || RayFailed? || Stopped?
    }
  }

  /** `map_status`. */
  function MapStatus(ray: RayStatus): Status {
    match ray
    case Pending => Queued
    case Running => InProgress
    case Succeeded => Completed
    case RayFailed => Failed
    case Stopped => Cancelled
    case Unrecognized(_) => Failed
  }

  /** A row of the batches table, without the columns that are only copied. */
  datatype Row = Row(
    status: Status,
    rayJobId: Option<JobId>,
    inputCount: nat,
    completedCount: int,
    failedCount: int,
    error: Option<string>,
    createdAt: int,
    completedAt: Option<int>)

  /** A marker file; `Torn` is one that was opened for writing and not yet written. */
  datatype Marker<+T> = Absent | Torn | Whole(payload: T)

  /** The fields of `_SUCCESS` that are read back; a missing field is None. */
  datatype SuccessPayload = SuccessPayload(total: int, completed: Option<int>, failed: Option<int>)

  datatype FailurePayload = EmptyObject | Fields(error: Option<string>)

  /** A batch directory. `staging` maps the names of the staging directory's `*.json` files to their rows,
      `others` names the rest of its files. */
  datatype Dir = Dir(
    input: Option<string>,
    staging: Option<map<string, seq<OutRow>>>,
    others: set<string>,
    results: Option<seq<OutRow>>,
    success: Marker<SuccessPayload>,
    failed: Marker<FailurePayload>)

  /** Nothing but the input has been written. */
  predicate Pristine(dir: Dir) {
    dir.staging == None && dir.others == {} && Unpublished(dir)
  }

  predicate Unpublished(dir: Dir) {
    dir.results == None && dir.success == Absent && dir.failed == Absent
  }

  /** The `_SUCCESS` payload for a result file. */
  function PayloadFor(total: nat, rows: seq<OutRow>): SuccessPayload {
    SuccessPayload(total, Some(CompletedCount(rows)), Some(FailedCount(rows)))
  }
}
