/** The row updates of the API, as functions on the batches table. None of them looks at the
    status it replaces, except to skip a write that would change nothing. */
module Table {
  import opened Wrappers
  import opened Domain

  type Rows = map<BatchId, Row>

  /** The row `create_batch` inserts. */
  function NewRow(inputCount: nat, now: int): Row {
    Row(Queued, None, inputCount, 0, 0, None, now, None)
  }

  function MarkFailed(rows: Rows, b: BatchId, error: string, now: int): Rows {
    if b in rows then rows[b := rows[b].(status := Failed, error := Some(error), completedAt := Some(now))] else rows
  }

  function AttachRayJobId(rows: Rows, b: BatchId, j: JobId): Rows {
    if b in rows then rows[b := rows[b].(rayJobId := Some(j))] else rows
  }

  /** What one poll of a row is about to write. */
  datatype Update =
    | SetStatus(status: Status)
    | Succeed(payload: SuccessPayload, at: int)
    | Finish(final: Status, error: Option<string>, at: int)
  {
    function Target(): Status {
      match this
      case SetStatus(status) => status
      case Succeed(_, _) => Completed
      case Finish(final, _, _) => final
    }
  }

  function CountOr0(count: Option<int>): int {
    if count.Some? then count.value else 0
  }

  /** `_update_status_only`, `_apply_success` and `_apply_terminal` on an existing row. */
  function UpdateRow(row: Row, u: Update): Row {
    match u
    case SetStatus(status) => row.(status := status)
    case Succeed(payload, at) =>
      row.(status := Completed, completedCount := CountOr0(payload.completed),
           failedCount := CountOr0(payload.failed), completedAt := Some(at))
    case Finish(final, error, at) => row.(status := final, error := error, completedAt := Some(at))
  }

  function ApplyUpdate(rows: Rows, b: BatchId, u: Update): Rows {
    if b in rows then rows[b := UpdateRow(rows[b], u)] else rows
  }

  // ---- Markers ----

  const TORN := "marker is not valid JSON"
  const NO_MARKER := "Ray job failed (no marker)"

  /** `read_success_marker`: raises on a torn marker. */
  function ReadSuccessMarker(dir: Option<Dir>): Result<Option<SuccessPayload>, string> {
    if dir.None? || dir.value.success.Absent? then Ok(None)
    else if dir.value.success.Torn? then Err(TORN)
    else Ok(Some(dir.value.success.payload))
  }

  /** `read_failure_marker`. */
  function ReadFailureMarker(dir: Option<Dir>): Result<Option<FailurePayload>, string> {
    if dir.None? || dir.value.failed.Absent? then Ok(None)
    else if dir.value.failed.Torn? then Err(TORN)
    else Ok(Some(dir.value.failed.payload))
  }

  /** `marker.get("error") if marker else "Ray job failed (no marker)"`; an empty dict is false. */
  function FailureMessage(marker: Option<FailurePayload>): Option<string> {
    if marker.None? || marker.value.EmptyObject? then Some(NO_MARKER) else marker.value.error
  }

  /** `_poll_one` after Ray's answer: the update it decides on, or the exception it raises. */
  function Decide(answer: Status, dir: Option<Dir>, inputCount: nat, now: int): Result<Update, string> {
    match answer
    case Completed =>
      (match ReadSuccessMarker(dir)
       case Err(e) => Err(e)
       case Ok(None) => Ok(Succeed(SuccessPayload(inputCount, Some(inputCount), Some(0)), now))
       case Ok(Some(payload)) => Ok(Succeed(payload, now)))
    case Failed =>
      (match ReadFailureMarker(dir)
       case Err(e) => Err(e)
       case Ok(marker) => Ok(Finish(Failed, FailureMessage(marker), now)))
    case Cancelled => Ok(Finish(Cancelled, None, now))
    case _ => Ok(SetStatus(answer))
  }

  /** A decision targets exactly the status Ray's answer maps to; and even the fallback for a
      missing `_SUCCESS` keeps the two counts adding up to the number of inputs. */
  lemma DecideTargets(answer: Status, dir: Option<Dir>, inputCount: nat, now: int)
    ensures Decide(answer, dir, inputCount, now).Ok? ==>
              Decide(answer, dir, inputCount, now).value.Target() == answer
    ensures answer == Completed && (dir.None? || dir.value.success.Absent?) ==>
              forall row: Row ::
                var after := UpdateRow(row, Decide(answer, dir, inputCount, now).value);
                after.completedCount + after.failedCount == inputCount
  {
  }

  // ---- What a poll writes ----

  /** The row after a poll that heard `ray` at time `at`, marker by marker and column by column; it is as it
      was where the marker is torn. */
  predicate PollWrites(ray: RayStatus, success: Marker<SuccessPayload>, failed: Marker<FailurePayload>, at: int,
                       row: Row, after: Row) {
    match ray
    case Pending => after == row.(status := Queued)
    case Running => after == row.(status := InProgress)
    case Succeeded =>
      (match success
       case Absent => after == row.(status := Completed, completedCount := row.inputCount, failedCount := 0,
                                    completedAt := Some(at))
       case Torn => after == row
       case Whole(p) =>
         after == row.(status := Completed,
                       completedCount := if p.completed.Some? then p.completed.value else 0,
                       failedCount := if p.failed.Some? then p.failed.value else 0,
                       completedAt := Some(at)))
    case Stopped => after == row.(status := Cancelled, error := None, completedAt := Some(at))
    case RayFailed => FailureWritten(failed, at, row, after)
    case Unrecognized(_) => FailureWritten(failed, at, row, after)
  }

  predicate FailureWritten(failed: Marker<FailurePayload>, at: int, row: Row, after: Row) {
    match failed
    case Torn => after == row
    case Absent => after == row.(status := Failed, error := Some("Ray job failed (no marker)"), completedAt := Some(at))
    case Whole(EmptyObject) =>
      after == row.(status := Failed, error := Some("Ray job failed (no marker)"), completedAt := Some(at))
    case Whole(Fields(e)) => after == row.(status := Failed, error := e, completedAt := Some(at))
  }

  function SuccessOf(dir: Option<Dir>): Marker<SuccessPayload> {
    if dir.None? then Absent else dir.value.success
  }

  function FailedOf(dir: Option<Dir>): Marker<FailurePayload> {
    if dir.None? then Absent else dir.value.failed
  }

  // ---- One sweep against answers that stay as they are ----

  /** What a sweep meets: Ray's answers (none for a call that raises), the batch directories,
      the clock reading for each row, and the rows whose commit fails. */
  datatype Answers = Answers(
    ray: map<JobId, RayStatus>,
    dirs: map<BatchId, Dir>,
    clock: BatchId -> int,
    lost: set<BatchId>)

  /** The update a poll of the row commits or tries to commit, if it gets that far. */
  function Decision(world: Answers, b: BatchId, row: Row): Option<Update> {
    if row.rayJobId.None? || row.rayJobId.value !in world.ray then None
    else
      match Decide(MapStatus(world.ray[row.rayJobId.value]), Get(world.dirs, b), row.inputCount, world.clock(b))
      case Ok(u) => Some(u)
      case Err(_) => None
  }

  function PolledRow(world: Answers, b: BatchId, row: Row): Row {
    if Decision(world, b, row).None? || b in world.lost then row
    else UpdateRow(row, Decision(world, b, row).value)
  }

  /** A poll that hears an answer and whose commit succeeds writes exactly what that answer and the markers
      call for; any other poll leaves the row. */
  lemma PollWritesThat(world: Answers, b: BatchId, row: Row)
    ensures var after := PolledRow(world, b, row);
            if row.rayJobId.None? || row.rayJobId.value !in world.ray || b in world.lost then after == row
            else PollWrites(world.ray[row.rayJobId.value], SuccessOf(Get(world.dirs, b)), FailedOf(Get(world.dirs, b)),
                            world.clock(b), row, after)
  {
    if row.rayJobId.Some? && row.rayJobId.value in world.ray && b !in world.lost {
      match world.ray[row.rayJobId.value]
      case Pending =>
      case Running =>
      case Succeeded =>
      case Stopped =>
      case RayFailed =>
      case Unrecognized(_) =>
    }
  }

  /** The table after one sweep: every active row is polled once, every other row is as it was. */
  function Sweep(world: Answers, rows: Rows): Rows {
    map b | b in rows :: if rows[b].status.Terminal() then rows[b] else PolledRow(world, b, rows[b])
  }

  /** The active rows whose poll increments `batch_terminal_total`. */
  function TerminalPolls(world: Answers, rows: Rows): set<BatchId> {
    set b | b in rows && !rows[b].status.Terminal()
            && Decision(world, b, rows[b]).Some? && Decision(world, b, rows[b]).value.Target().Terminal()
  }

  /** The table when the rows in `done` have been polled. */
  function SweepOf(world: Answers, rows: Rows, done: set<BatchId>): Rows {
    map b | b in rows :: if b in done then PolledRow(world, b, rows[b]) else rows[b]
  }

  /** Polling one more row changes that row alone, whichever rows were polled before it. */
  lemma SweepOneMore(world: Answers, rows: Rows, done: set<BatchId>, b: BatchId)
    requires b in rows && b !in done
    ensures var before := SweepOf(world, rows, done);
            && before[b] == rows[b]
            && SweepOf(world, rows, done + {b}) == before[b := PolledRow(world, b, rows[b])]
  {
  }

  lemma OneMoreIn(all: set<BatchId>, done: set<BatchId>, b: BatchId)
    requires b !in done
    ensures |all * (done + {b})| == |all * done| + (if b in all then 1 else 0)
  {
    if b in all {
      assert all * (done + {b}) == all * done + {b};
    } else {
      assert all * (done + {b}) == all * done;
    }
  }

  /** Repeating a sweep against the same answers changes nothing. */
  lemma SweepIdempotent(world: Answers, rows: Rows)
    ensures Sweep(world, Sweep(world, rows)) == Sweep(world, rows)
  {
    forall b | b in rows
      ensures Sweep(world, Sweep(world, rows))[b] == Sweep(world, rows)[b]
    {
      PollTwice(world, b, rows[b]);
    }
  }

  lemma PollTwice(world: Answers, b: BatchId, row: Row)
    ensures PolledRow(world, b, PolledRow(world, b, row)) == PolledRow(world, b, row)
    ensures PolledRow(world, b, row).rayJobId == row.rayJobId
  {
    var once := PolledRow(world, b, row);
    assert once.rayJobId == row.rayJobId && once.inputCount == row.inputCount;
    assert Decision(world, b, once) == Decision(world, b, row);
  }

  predicate Readable(dir: Option<Dir>) {
    ReadSuccessMarker(dir).Ok? && ReadFailureMarker(dir).Ok?
  }

  /** Once every attached job has ended and every marker read and commit succeeds, one sweep
      leaves no active row that holds a job id. */
  lemma SweepConverges(world: Answers, rows: Rows)
    requires forall b | b in rows && !rows[b].status.Terminal() && rows[b].rayJobId.Some? ::
               && rows[b].rayJobId.value in world.ray && world.ray[rows[b].rayJobId.value].Ended()
               && Readable(Get(world.dirs, b)) && b !in world.lost
    ensures forall b | b in Sweep(world, rows) && Sweep(world, rows)[b].rayJobId.Some? ::
              Sweep(world, rows)[b].status.Terminal()
  {
    forall b | b in rows && !rows[b].status.Terminal() && rows[b].rayJobId.Some?
      ensures PolledRow(world, b, rows[b]).status.Terminal()
    {
      var row := rows[b];
      var answer := MapStatus(world.ray[row.rayJobId.value]);
      DecideTargets(answer, Get(world.dirs, b), row.inputCount, world.clock(b));
    }
  }
}
