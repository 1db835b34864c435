/** What holds in every reachable state. Everything about one batch is read off its View; the
    poller and the results handlers rely only on how other parties may change a View. */
module Invariant {
  import opened Wrappers
  import opened Jsonl
  import opened Predictor
  import opened Domain
  import opened Table
  import opened Api
  import opened Protocol
  import Worker

  /** All that the system holds about one batch. */
  datatype View = View(
    batch: BatchId,
    posted: Option<seq<string>>,
    dir: Option<Dir>,
    row: Option<Row>,
    handler: Option<Handler>,
    inflight: bool,
    jobId: Option<JobId>,
    job: Option<Job>)

  function ViewOf(s: System, b: BatchId): View {
    View(b, Get(s.posted, b), Get(s.dirs, b), Get(s.rows, b), Get(s.handlers, b), b in s.inflight,
         Get(s.jobOf, b), if b in s.jobOf then Get(s.jobs, s.jobOf[b]) else None)
  }

  // ---- One batch ----

  /** A row's status is never ahead of its job, and a terminal one is the job's own. */
  predicate Follows(status: Status, ahead: Status) {
    status.Rank() <= ahead.Rank() && (status.Terminal() ==> status == ahead)
  }

  predicate Untouched(row: Option<Row>) {
    row.Some? && row.value.status == Queued && row.value.rayJobId == None
  }

  /** The columns agree with the status. */
  predicate WellFormed(row: Row, now: int) {
    && row.createdAt <= now
    && (row.completedAt.Some? <==> row.status.Terminal())
    && (row.completedAt.Some? ==> row.createdAt <= row.completedAt.value <= now)
    && (row.error.Some? <==> row.status == Failed)
    && (row.status != Completed ==> row.completedCount == row.failedCount == 0)
  }

  predicate InputComplete(v: View) {
    v.posted.Some? && v.dir.Some? && v.dir.value.input == Some(EncodeFile(v.posted.value))
  }

  predicate HandlerOk(v: View)
    requires v.posted.Some? && v.dir.Some? && v.handler.Some?
  {
    match v.handler.value
    case Writing(next) =>
      && v.row.None? && next <= |v.posted.value| && v.dir.value.input.Some?
      && v.dir.value.input.value + EncodeRows(NumberRows(v.posted.value)[next..]) == EncodeFile(v.posted.value)
    case InputReady => v.row.None? && InputComplete(v)
    case RowCommitted => Untouched(v.row) && !v.inflight && v.jobId.None?
    case GotJob(j) => Untouched(v.row) && v.jobId == Some(j)
    case Submitting => Untouched(v.row)
    case SubmitRaised(_) => Untouched(v.row)
    case FailureCounted(_) => Untouched(v.row)
    case JobAttached => v.row.Some? && v.row.value.rayJobId.Some?
    case SubmitCounted => v.row.Some? && v.row.value.rayJobId.Some?
  }

  /** The error a failed row shows for a `_FAILED` file that is not torn. */
  function FailureShown(failed: Marker<FailurePayload>): Option<string> {
    if failed.Whole? && failed.payload.Fields? then failed.payload.error else Some("Ray job failed (no marker)")
  }

  predicate BlamesSubmission(error: string) {
    "Ray submission failed: " <= error
  }

  predicate RowOk(v: View, now: int)
    requires v.row.Some?
  {
    var row := v.row.value;
    && InputComplete(v) && row.inputCount == |v.posted.value| && WellFormed(row, now)
    && (row.rayJobId.None? ==> row.status == Queued || row.status == Failed)
    && (row.rayJobId.Some? ==> v.jobId == row.rayJobId && v.job.Some? && Follows(row.status, MapStatus(v.job.value.status)))
    && (row.status == Completed ==>
          && v.dir.value.results.Some?
          && row.completedCount == CompletedCount(v.dir.value.results.value)
          && row.failedCount == FailedCount(v.dir.value.results.value))
    && (row.status == Failed && row.rayJobId.Some? ==>
          !v.dir.value.failed.Torn? && row.error == FailureShown(v.dir.value.failed))
    && (row.status == Failed && row.rayJobId.None? ==> row.error.Some? && BlamesSubmission(row.error.value))
  }

  ghost predicate JobOk(models: Models, v: View)
    requires v.posted.Some? && v.dir.Some? && v.job.Some?
  {
    var job := v.job.value;
    && !job.status.Unrecognized?
    && (job.status.Ended() ==> job.process.Ended())
    && (job.status.Succeeded? ==> job.process == Worker.Exited(0))
    && Worker.FirstRun(models(v.batch), v.posted.value, Worker.Config(job.process, v.dir.value))
  }

  ghost predicate ViewOk(models: Models, now: int, v: View) {
    if v.posted.None? then
      v.dir.None? && v.row.None? && v.handler.None? && !v.inflight && v.jobId.None?
    else
      && v.posted.value != [] && v.dir.Some?
      && (v.handler.Some? ==> HandlerOk(v))
      && (v.row.Some? ==> RowOk(v, now))
      && (v.inflight ==> v.row.Some? && v.jobId.None?)
      && (v.jobId.None? ==> Pristine(v.dir.value) && v.job.None?)
      && (v.jobId.Some? ==> v.row.Some? && v.job.Some? && JobOk(models, v))
  }

  // ---- The poller ----

  predicate SnapOk(v: View, snap: Snap) {
    && v.row.Some? && v.row.value.inputCount == snap.inputCount
    && (snap.job.Some? ==> v.row.value.rayJobId == snap.job && !v.row.value.status.Terminal())
  }

  /** An answer of Ray's for the row: not behind the row, not ahead of the job. */
  predicate AnswerOk(v: View, answer: Status) {
    && v.row.Some? && v.job.Some?
    && v.row.value.status.Rank() <= answer.Rank()
    && Follows(answer, MapStatus(v.job.value.status))
  }

  predicate UpdateOk(v: View, now: int, u: Update)
    requires v.row.Some?
  {
    var row := v.row.value;
    match u
    case SetStatus(status) => !status.Terminal()
    case Succeed(payload, at) =>
      && row.createdAt <= at <= now
      && v.dir.Some? && v.dir.value.results.Some?
      && payload == PayloadFor(row.inputCount, v.dir.value.results.value)
    case Finish(final, error, at) =>
      && row.createdAt <= at <= now
      && (final == Failed || final == Cancelled) && (error.Some? <==> final == Failed)
      && (final == Failed ==>
            v.dir.Some? && !v.dir.value.failed.Torn? && error == FailureShown(v.dir.value.failed))
  }

  function Todo(p: Poller): seq<Snap> {
    if p.Sleeping? then [] else p.todo
  }

  ghost predicate TodoOk(s: System) {
    var todo := Todo(s.poller);
    && (forall i | 0 <= i < |todo| :: SnapOk(ViewOf(s, todo[i].id), todo[i]))
    && (forall i, k | 0 <= i < k < |todo| :: todo[i].id != todo[k].id)
  }

  ghost predicate PollerOk(s: System) {
    && TodoOk(s)
    && (s.poller.Heard? ==>
          s.poller.todo != [] && s.poller.todo[0].job.Some?
          && AnswerOk(ViewOf(s, s.poller.todo[0].id), s.poller.answer))
    && (s.poller.Deciding? ==>
          s.poller.todo != [] && s.poller.todo[0].job.Some?
          && AnswerOk(ViewOf(s, s.poller.todo[0].id), s.poller.update.Target())
          && UpdateOk(ViewOf(s, s.poller.todo[0].id), s.now, s.poller.update))
  }

  // ---- Results handlers ----

  /** The batch is completed and its result file is there. */
  predicate Published(v: View) {
    v.row.Some? && v.row.value.status == Completed && v.dir.Some? && v.dir.value.results.Some?
  }

  predicate ReaderOk(v: View, reader: Reader) {
    match reader
    case Found(_) => Published(v)
    case Opened(_, sent) => Published(v) && sent <= v.dir.value.results.value
    case Done(_, response) =>
      && response != ServerError
      && (response.Streamed? ==> Published(v) && response.body == v.dir.value.results.value)
  }

  // ---- The whole ----

  predicate JobsOk(s: System) {
    && (forall j | j in s.jobs :: s.jobs[j].batch in s.jobOf && s.jobOf[s.jobs[j].batch] == j)
    && (forall b | b in s.jobOf :: s.jobOf[b] in s.jobs && s.jobs[s.jobOf[b]].batch == b)
  }

  ghost predicate Inv(models: Models, s: System) {
    && (forall b: BatchId :: ViewOk(models, s.now, ViewOf(s, b)))
    && JobsOk(s)
    && PollerOk(s)
    && (forall r | r in s.readers :: ReaderOk(ViewOf(s, s.readers[r].batch), s.readers[r]))
  }

  lemma InitialOk(models: Models)
    ensures Inv(models, INITIAL)
  {
  }

  /** What every step but the poller's commit leaves of a batch: an attached row is not written,
      the job only moves forward, a job that ended has its files as they are. */
  predicate Keeps(v: View, v': View) {
    && (v.row.Some? ==> v'.row.Some? && v'.row.value.inputCount == v.row.value.inputCount
                        && v'.row.value.createdAt == v.row.value.createdAt)
    && (v.row.Some? && v.row.value.rayJobId.Some? ==> v'.row == v.row)
    && (v.row.Some? && v.row.value.status.Terminal() ==> v'.row == v.row)
    && (v.job.Some? ==> v'.job.Some? && Follows(MapStatus(v.job.value.status), MapStatus(v'.job.value.status)))
    && (v.job.Some? && v.job.value.status.Ended() ==> v'.dir == v.dir)
  }

  /** A step confined to one batch, which the other parties can rely on, keeps the invariant. */
  lemma LocalStep(models: Models, s: System, s': System, b: BatchId)
    requires Inv(models, s)
    requires forall x: BatchId | x != b :: ViewOf(s', x) == ViewOf(s, x)
    requires ViewOk(models, s.now, ViewOf(s', b)) && Keeps(ViewOf(s, b), ViewOf(s', b))
    requires JobsOk(s')
    requires s'.now == s.now && s'.poller == s.poller && s'.readers == s.readers
    ensures Inv(models, s')
  {
    forall x: BatchId ensures ViewOk(models, s'.now, ViewOf(s', x)) && Keeps(ViewOf(s, x), ViewOf(s', x)) {
      if x != b { KeepsSelf(ViewOf(s, x)); }
    }
    PollerKept(models, s, s');
    forall r | r in s'.readers ensures ReaderOk(ViewOf(s', s'.readers[r].batch), s'.readers[r]) {
      ReaderKept(models, s.now, ViewOf(s, s.readers[r].batch), ViewOf(s', s.readers[r].batch), s.readers[r]);
    }
  }

  lemma KeepsSelf(v: View)
    ensures Keeps(v, v)
  {
  }

  lemma ReaderKept(models: Models, now: int, v: View, v': View, reader: Reader)
    requires ViewOk(models, now, v) && Keeps(v, v') && ReaderOk(v, reader)
    ensures ReaderOk(v', reader)
  {
  }

  lemma AnswerKept(v: View, v': View, answer: Status)
    requires AnswerOk(v, answer) && Keeps(v, v') && v.row.value.rayJobId.Some?
    ensures AnswerOk(v', answer)
  {
  }

  lemma UpdateKept(models: Models, now: int, v: View, now': int, v': View, u: Update)
    requires ViewOk(models, now, v) && Keeps(v, v') && now <= now' && v.row.Some? && v.row.value.rayJobId.Some?
    requires AnswerOk(v, u.Target()) && UpdateOk(v, now, u)
    ensures v'.row.Some? && UpdateOk(v', now', u)
  {
  }

  lemma SnapKept(v: View, v': View, snap: Snap)
    requires SnapOk(v, snap) && Keeps(v, v')
    ensures SnapOk(v', snap)
  {
  }

  lemma PollerKept(models: Models, s: System, s': System)
    requires Inv(models, s) && s'.poller == s.poller && s'.now >= s.now
    requires forall x: BatchId :: Keeps(ViewOf(s, x), ViewOf(s', x))
    ensures PollerOk(s')
  {
    var todo := Todo(s.poller);
    forall i | 0 <= i < |todo| ensures SnapOk(ViewOf(s', todo[i].id), todo[i]) {
      SnapKept(ViewOf(s, todo[i].id), ViewOf(s', todo[i].id), todo[i]);
    }
    if s.poller.Heard? || s.poller.Deciding? {
      var v, v' := ViewOf(s, todo[0].id), ViewOf(s', todo[0].id);
      assert SnapOk(v, todo[0]);
      if s.poller.Heard? {
        AnswerKept(v, v', s.poller.answer);
      } else {
        AnswerKept(v, v', s.poller.update.Target());
        UpdateKept(models, s.now, v, s'.now, v', s.poller.update);
      }
    }
  }
}
