/** Safety over whole runs: the lifecycle of a row, what ties it to its job and its files, and
    what a client of the results endpoint is served. */
module Lifecycle {
  import opened Wrappers
  import opened Text
  import opened Jsonl
  import opened Predictor
  import opened Results
  import opened Permutations
  import opened Pipeline
  import opened Domain
  import opened Table
  import opened Api
  import opened Protocol
  import opened Invariant
  import opened Preservation
  import Worker

  // ---- The lifecycle of a row ----

  /** Five states, forward only: queued, then in_progress, then one of three terminals, each of
      which may be skipped; the job id is set once; a terminal row never changes again. */
  predicate Advances(row: Row, row': Row) {
    && row'.inputCount == row.inputCount && row'.createdAt == row.createdAt
    && (row'.status == row.status || row.status.Rank() < row'.status.Rank())
    && (row.rayJobId.Some? ==> row'.rayJobId == row.rayJobId)
    && (row.status.Terminal() ==> row' == row)
  }

  lemma KeptRowAdvances(models: Models, now: int, v: View, v': View)
    requires ViewOk(models, now, v) && ViewOk(models, now, v') && Keeps(v, v') && v.row.Some?
    ensures Advances(v.row.value, v'.row.value)
  {
  }

  lemma CommittedRowAdvances(v: View, u: Update)
    requires v.row.Some? && !v.row.value.status.Terminal() && AnswerOk(v, u.Target())
    ensures Advances(v.row.value, UpdateRow(v.row.value, u))
  {
  }

  lemma DecidedRowAdvances(s: System)
    requires PollerOk(s) && s.poller.Deciding? && s.poller.todo[0].id in s.rows
    ensures var row := s.rows[s.poller.todo[0].id]; Advances(row, UpdateRow(row, s.poller.update))
  {
    var v := ViewOf(s, s.poller.todo[0].id);
    assert SnapOk(v, Todo(s.poller)[0]);
    CommittedRowAdvances(v, s.poller.update);
  }

  /** The poller's commit is the one step that moves an attached row. */
  lemma CommitAdvances(models: Models, s: System, s': System, b: BatchId)
    requires Inv(models, s) && PollerStep(s, CommitUpdate) == Some(s') && b in s.rows
    ensures b in s'.rows && Advances(s.rows[b], s'.rows[b])
  {
    CommitShape(s, s');
    if b == s.poller.todo[0].id {
      DecidedRowAdvances(s);
    }
  }

  lemma HandlerAdvances(models: Models, s: System, a: Action, s': System, b: BatchId)
    requires Inv(models, s) && HandlerAction(a) && HandlerStep(s, a) == Some(s') && b in s.rows
    ensures b in s'.rows && Advances(s.rows[b], s'.rows[b])
  {
    assert ViewOk(models, s.now, ViewOf(s, b));
    HandlerIsLocal(s, a, s', b);
    assert ViewOf(s', b).row == Get(s'.rows, b);
    if b == a.b {
      HandlerKeeps(models, s, a, s');
      HandlerKeepsInv(models, s, a, s');
      KeptRowAdvances(models, s.now, ViewOf(s, b), ViewOf(s', b));
    }
  }

  lemma HandlerKeeps(models: Models, s: System, a: Action, s': System)
    requires Inv(models, s) && HandlerAction(a) && HandlerStep(s, a) == Some(s')
    ensures Keeps(ViewOf(s, a.b), ViewOf(s', a.b))
  {
    if a.Post? || a.WriteLine? || a.CloseInput? {
      WritingStepOk(models, s, a, s');
    } else if a.CommitRow? {
      CommitRowOk(models, s, a, s');
    } else if a.CommitFailed? {
      CommitFailedOk(models, s, a, s');
    } else if a.CommitJobId? {
      CommitJobIdOk(models, s, a, s');
    } else {
      MovingOnOk(models, s, a, s');
    }
  }

  lemma OthersKeepRows(models: Models, s: System, a: Action, s': System)
    requires !HandlerAction(a) && !a.CommitUpdate? && Step(models, s, a) == Some(s')
    ensures s'.rows == s.rows
  {
    if PollerAction(a) {
      QuietShape(s, a, s');
    } else if ReaderAction(a) {
      ReaderIsLocal(s, a, s');
    }
  }

  /** No step of any party moves a row backwards or changes a terminal row, although no update of
      a row tests the status it replaces. */
  lemma StepAdvances(models: Models, s: System, a: Action, s': System, b: BatchId)
    requires Inv(models, s) && Step(models, s, a) == Some(s') && b in s.rows
    ensures b in s'.rows && Advances(s.rows[b], s'.rows[b])
  {
    if HandlerAction(a) {
      HandlerAdvances(models, s, a, s', b);
    } else if a.CommitUpdate? {
      CommitAdvances(models, s, s', b);
    } else {
      OthersKeepRows(models, s, a, s');
    }
  }

  lemma AdvancesTransitive(x: Row, y: Row, z: Row)
    requires Advances(x, y) && Advances(y, z)
    ensures Advances(x, z)
  {
  }

  /** The same over whole runs from any reachable state, restarts of the API included. */
  lemma {:induction false} RunAdvances(models: Models, before: seq<Action>, s: System, after: seq<Action>, s': System,
                                       b: BatchId)
    requires Run(models, INITIAL, before) == Some(s) && Run(models, s, after) == Some(s')
    requires b in s.rows
    ensures Inv(models, s')
    ensures b in s'.rows && Advances(s.rows[b], s'.rows[b])
  {
    if after == [] {
      ReachableOk(models, before, s);
    } else {
      var last := |after| - 1;
      var middle := Run(models, s, after[..last]).value;
      RunAdvances(models, before, s, after[..last], middle, b);
      StepKeepsInv(models, middle, after[last], s');
      StepAdvances(models, middle, after[last], s', b);
      AdvancesTransitive(s.rows[b], middle.rows[b], s'.rows[b]);
    }
  }

  /** A row that reached a terminal status is the same row in every later state. */
  lemma TerminalIsFinal(models: Models, before: seq<Action>, s: System, after: seq<Action>, s': System, b: BatchId)
    requires Run(models, INITIAL, before) == Some(s) && Run(models, s, after) == Some(s')
    requires b in s.rows && s.rows[b].status.Terminal()
    ensures b in s'.rows && s'.rows[b] == s.rows[b]
  {
    RunAdvances(models, before, s, after, s', b);
  }

  /** How often the status of `b` changes along a run. */
  ghost function StatusChanges(models: Models, s: System, actions: seq<Action>, b: BatchId): nat {
    if actions == [] then 0
    else
      var last := |actions| - 1;
      var before, after := Run(models, s, actions[..last]), Run(models, s, actions);
      StatusChanges(models, s, actions[..last], b)
      + (if before.Some? && after.Some? && b in before.value.rows && b in after.value.rows
            && before.value.rows[b].status != after.value.rows[b].status then 1 else 0)
  }

  lemma InsertedRow(s: System, a: Action, s': System, b: BatchId)
    requires HandlerAction(a) && HandlerStep(s, a) == Some(s') && b !in s.rows && b in s'.rows
    ensures b in s.posted && s'.rows[b] == Row(Queued, None, |s.posted[b]|, 0, 0, None, s.now, None)
  {
  }

  /** A new row is queued and blank, carries the number of the posted prompts and the time of its commit. */
  lemma NewRowIsQueued(models: Models, s: System, a: Action, s': System, b: BatchId)
    requires Step(models, s, a) == Some(s') && b !in s.rows && b in s'.rows
    ensures b in s.posted && s'.rows[b] == Row(Queued, None, |s.posted[b]|, 0, 0, None, s.now, None)
  {
    if HandlerAction(a) {
      IsHandlerStep(models, s, a);
      InsertedRow(s, a, s', b);
    } else if a.CommitUpdate? {
      IsPollerStep(models, s, a);
      CommitShape(s, s');
    } else {
      OthersKeepRows(models, s, a, s');
    }
  }

  /** In any run a row's status changes at most twice: its rank counts the changes. */
  lemma {:induction false} AtMostTwoChanges(models: Models, actions: seq<Action>, s: System, b: BatchId)
    requires Run(models, INITIAL, actions) == Some(s)
    ensures b in s.rows ==> StatusChanges(models, INITIAL, actions, b) <= s.rows[b].status.Rank() <= 2
    ensures b !in s.rows ==> StatusChanges(models, INITIAL, actions, b) == 0
  {
    if actions != [] {
      var last := |actions| - 1;
      var before := Run(models, INITIAL, actions[..last]).value;
      AtMostTwoChanges(models, actions[..last], before, b);
      ReachableOk(models, actions[..last], before);
      if b in before.rows {
        StepAdvances(models, before, actions[last], s, b);
      } else if b in s.rows {
        NewRowIsQueued(models, before, actions[last], s, b);
      }
    }
  }

  // ---- Every change of a row ----

  /** `_attach_ray_job_id`: the id of the batch's own job, and nothing else. */
  predicate AttachedTo(s: System, b: BatchId, row: Row, after: Row) {
    && row.rayJobId.None? && after.rayJobId.Some? && after == row.(rayJobId := after.rayJobId)
    && after.rayJobId.value in s.jobs && s.jobs[after.rayJobId.value].batch == b
  }

  /** `_mark_failed`, of a row that is queued and has no job id. */
  predicate Refused(s: System, row: Row, after: Row) {
    && row.status == Queued && row.rayJobId.None? && after.error.Some? && BlamesSubmission(after.error.value)
    && after == row.(status := Failed, error := after.error, completedAt := Some(s.now))
  }

  /** What the poller may have heard of the job: how it stands, or that it was still pending or running. */
  predicate MayHaveHeard(ray: RayStatus, status: RayStatus) {
    ray == status || ray.Pending? || ray.Running?
  }

  predicate PolledAt(v: View, now: int, row: Row, after: Row, ray: RayStatus, at: int)
    requires v.job.Some? && v.dir.Some?
  {
    && row.createdAt <= at <= now && MayHaveHeard(ray, v.job.value.status)
    && PollWrites(ray, v.dir.value.success, v.dir.value.failed, at, row, after)
  }

  /** An update of the poller: what some answer of Ray's and the files of the batch call for. */
  ghost predicate Polled(v: View, now: int, row: Row, after: Row) {
    && row.rayJobId.Some? && v.job.Some? && v.dir.Some?
    && exists ray, at :: PolledAt(v, now, row, after, ray, at)
  }

  lemma CommitWrites(models: Models, now: int, v: View, u: Update)
    requires ViewOk(models, now, v) && v.row.Some? && v.row.value.rayJobId.Some? && !v.row.value.status.Terminal()
    requires AnswerOk(v, u.Target()) && UpdateOk(v, now, u)
    ensures Polled(v, now, v.row.value, UpdateRow(v.row.value, u))
  {
    var row, after := v.row.value, UpdateRow(v.row.value, u);
    match u
    case SetStatus(status) =>
      if status == Queued {
        assert PolledAt(v, now, row, after, Pending, now);
      } else {
        assert PolledAt(v, now, row, after, Running, now);
      }
    case Succeed(payload, at) => assert PolledAt(v, now, row, after, Succeeded, at);
    case Finish(final, error, at) =>
      if final == Failed {
        assert PolledAt(v, now, row, after, RayFailed, at);
      } else {
        assert PolledAt(v, now, row, after, Stopped, at);
      }
  }

  lemma RefusalChanges(models: Models, s: System, a: Action, s': System)
    requires Inv(models, s) && a.CommitFailed? && RecordStep(s, a) == Some(s')
    ensures forall b | b != a.b && b in s.rows :: b in s'.rows && s'.rows[b] == s.rows[b]
    ensures a.b in s.rows && a.b in s'.rows && Refused(s, s.rows[a.b], s'.rows[a.b])
  {
    assert ViewOk(models, s.now, ViewOf(s, a.b));
    ErrorBlamesSubmission(s.handlers[a.b].typeName);
  }

  lemma AttachmentChanges(models: Models, s: System, a: Action, s': System)
    requires Inv(models, s) && a.CommitJobId? && RecordStep(s, a) == Some(s')
    ensures forall b | b != a.b && b in s.rows :: b in s'.rows && s'.rows[b] == s.rows[b]
    ensures a.b in s.rows && a.b in s'.rows && AttachedTo(s, a.b, s.rows[a.b], s'.rows[a.b])
  {
    assert ViewOk(models, s.now, ViewOf(s, a.b));
  }

  lemma HandlerChanges(models: Models, s: System, a: Action, s': System, b: BatchId)
    requires Inv(models, s) && HandlerAction(a) && HandlerStep(s, a) == Some(s')
    requires b in s.rows && b in s'.rows && s'.rows[b] != s.rows[b]
    ensures AttachedTo(s, b, s.rows[b], s'.rows[b]) || Refused(s, s.rows[b], s'.rows[b])
  {
    if a.CommitFailed? {
      RefusalChanges(models, s, a, s');
    } else if a.CommitJobId? {
      AttachmentChanges(models, s, a, s');
    } else {
      HandlerKeepsRows(s, a, s', b);
    }
  }

  lemma HandlerKeepsRows(s: System, a: Action, s': System, b: BatchId)
    requires HandlerAction(a) && HandlerStep(s, a) == Some(s') && !a.CommitFailed? && !a.CommitJobId?
    requires b in s.rows
    ensures b in s'.rows && s'.rows[b] == s.rows[b]
  {
    if InputAction(a) {
      assert InputStep(s, a) == Some(s');
    } else if SubmitAction(a) {
      assert SubmitStep(s, a) == Some(s');
    } else {
      assert RecordStep(s, a) == Some(s');
    }
  }

  lemma CommitChanges(models: Models, s: System, s': System, b: BatchId)
    requires Inv(models, s) && PollerStep(s, CommitUpdate) == Some(s')
    requires b in s.rows && b in s'.rows && s'.rows[b] != s.rows[b]
    ensures Polled(ViewOf(s, b), s.now, s.rows[b], s'.rows[b])
  {
    CommitShape(s, s');
    assert SnapOk(ViewOf(s, b), Todo(s.poller)[0]) && ViewOk(models, s.now, ViewOf(s, b));
    CommitWrites(models, s.now, ViewOf(s, b), s.poller.update);
  }

  /** Every change of the table in any run is one of four: a blank queued row appears, it gets the id of its
      own job, it is refused for its submission, or a poll writes what Ray answered and the files say. */
  lemma RowChangesAre(models: Models, actions: seq<Action>, s: System, a: Action, s': System, b: BatchId)
    requires Run(models, INITIAL, actions) == Some(s) && Step(models, s, a) == Some(s')
    requires b in s'.rows
    ensures b !in s.rows ==>
              b in s.posted && s'.rows[b] == Row(Queued, None, |s.posted[b]|, 0, 0, None, s.now, None)
    ensures b in s.rows && s'.rows[b] != s.rows[b] ==>
              || AttachedTo(s, b, s.rows[b], s'.rows[b])
              || Refused(s, s.rows[b], s'.rows[b])
              || Polled(ViewOf(s, b), s.now, s.rows[b], s'.rows[b])
  {
    ReachableOk(models, actions, s);
    if b !in s.rows {
      NewRowIsQueued(models, s, a, s', b);
    } else if s'.rows[b] != s.rows[b] {
      if HandlerAction(a) {
        IsHandlerStep(models, s, a);
        HandlerChanges(models, s, a, s', b);
      } else if a.CommitUpdate? {
        IsPollerStep(models, s, a);
        CommitChanges(models, s, s', b);
      } else {
        OthersKeepRows(models, s, a, s');
      }
    }
  }

  /** The error of a failed row: of an attached one it is what its directory's `_FAILED` says, or that there
      is no such file; of another that the submission failed. */
  lemma FailureIsShown(models: Models, actions: seq<Action>, s: System, b: BatchId)
    requires Run(models, INITIAL, actions) == Some(s) && b in s.rows && s.rows[b].status == Failed
    ensures b in s.dirs && s.rows[b].error.Some?
    ensures s.rows[b].rayJobId.Some? ==>
              match s.dirs[b].failed
              case Absent => s.rows[b].error == Some("Ray job failed (no marker)")
              case Torn => false
              case Whole(EmptyObject) => s.rows[b].error == Some("Ray job failed (no marker)")
              case Whole(Fields(e)) => s.rows[b].error == e
    ensures s.rows[b].rayJobId.None? ==> "Ray submission failed: " <= s.rows[b].error.value
  {
    ReachableOk(models, actions, s);
    assert ViewOk(models, s.now, ViewOf(s, b));
  }

  // ---- Rows and jobs ----

  /** An attached row names a job of its own, is never ahead of it, and once terminal shows how it
      ended. Two rows never share a job. */
  lemma RowFollowsItsJob(models: Models, actions: seq<Action>, s: System, b: BatchId)
    requires Run(models, INITIAL, actions) == Some(s)
    requires b in s.rows && s.rows[b].rayJobId.Some?
    ensures var j := s.rows[b].rayJobId.value;
            && j in s.jobs && s.jobs[j].batch == b
            && s.rows[b].status.Rank() <= MapStatus(s.jobs[j].status).Rank()
            && (s.rows[b].status.Terminal() ==>
                  s.jobs[j].status.Ended() && s.rows[b].status == MapStatus(s.jobs[j].status))
    ensures match s.rows[b].status
            case Queued => true
            case InProgress => !s.jobs[s.rows[b].rayJobId.value].status.Pending?
            case Completed => s.jobs[s.rows[b].rayJobId.value].status == Succeeded
            case Failed => s.jobs[s.rows[b].rayJobId.value].status == RayFailed
            case Cancelled => s.jobs[s.rows[b].rayJobId.value].status == Stopped
    ensures forall other | other in s.rows && other != b :: s.rows[other].rayJobId != s.rows[b].rayJobId
  {
    ReachableOk(models, actions, s);
    assert ViewOk(models, s.now, ViewOf(s, b));
    forall other | other in s.rows && other != b ensures s.rows[other].rayJobId != s.rows[b].rayJobId {
      assert ViewOk(models, s.now, ViewOf(s, other));
    }
  }

  /** Input before row, row before job: whatever job Ray runs, its batch has a row with the right
      number of inputs and a complete input file, and no other job. */
  lemma JobHasRowAndInput(models: Models, actions: seq<Action>, s: System, j: JobId)
    requires Run(models, INITIAL, actions) == Some(s) && j in s.jobs
    ensures var b := s.jobs[j].batch;
            && b in s.posted && b in s.rows && s.rows[b].inputCount == |s.posted[b]| >= 1
            && b in s.dirs && s.dirs[b].input.Some?
            && DecodeFile(s.dirs[b].input.value) == Some(NumberRows(s.posted[b]))
    ensures forall k | k in s.jobs && s.jobs[k].batch == s.jobs[j].batch :: k == j
  {
    ReachableOk(models, actions, s);
    var b := s.jobs[j].batch;
    assert ViewOk(models, s.now, ViewOf(s, b));
    FileRoundTrip(s.posted[b]);
  }

  /** Input before row: every row the table ever shows has a complete input file. */
  lemma RowHasInput(models: Models, actions: seq<Action>, s: System, b: BatchId)
    requires Run(models, INITIAL, actions) == Some(s) && b in s.rows
    ensures b in s.posted && s.rows[b].inputCount == |s.posted[b]|
    ensures b in s.dirs && s.dirs[b].input.Some?
    ensures DecodeFile(s.dirs[b].input.value) == Some(NumberRows(s.posted[b]))
  {
    ReachableOk(models, actions, s);
    assert ViewOk(models, s.now, ViewOf(s, b));
    FileRoundTrip(s.posted[b]);
  }

  /** A worker that loads its input finds every submitted prompt: the missing-input error cannot
      happen. */
  lemma WorkerFindsItsInput(models: Models, actions: seq<Action>, s: System, j: JobId, s': System)
    requires Run(models, INITIAL, actions) == Some(s)
    requires WorkStep(models, s, j, Worker.LoadInput) == Some(s')
    ensures j in s'.jobs && s.jobs[j].batch in s.posted
    ensures s'.jobs[j].process == Worker.Loaded(NumberRows(s.posted[s.jobs[j].batch]))
  {
    ReachableOk(models, actions, s);
    var b := s.jobs[j].batch;
    assert ViewOk(models, s.now, ViewOf(s, b));
    var c := Worker.Config(s.jobs[j].process, s.dirs[b]);
    Worker.InputIsNeverMissing(models(b), s.posted[b], c, Worker.Step(models(b), c, Worker.LoadInput).value);
  }

  /** The columns of every row agree with its status. */
  lemma RowsAreWellFormed(models: Models, actions: seq<Action>, s: System, b: BatchId)
    requires Run(models, INITIAL, actions) == Some(s) && b in s.rows
    ensures var row := s.rows[b];
            && (row.completedAt.Some? <==> row.status.Terminal())
            && (row.completedAt.Some? ==> row.createdAt <= row.completedAt.value)
            && (row.error.Some? <==> row.status == Failed)
            && (if row.status == Completed then row.completedCount + row.failedCount == row.inputCount
                else row.completedCount == row.failedCount == 0)
  {
    ReachableOk(models, actions, s);
    var v := ViewOf(s, b);
    assert ViewOk(models, s.now, v);
    if s.rows[b].status == Completed {
      SameLength(Expected(models(b), v.posted.value), v.dir.value.results.value);
    }
  }

  /** `create_batch` never misses its row when it comes to re-read it. */
  lemma RowNeverVanishes(models: Models, actions: seq<Action>, s: System, b: BatchId)
    requires Run(models, INITIAL, actions) == Some(s)
    requires b in s.handlers && !s.handlers[b].Writing? && !s.handlers[b].InputReady?
    ensures b in s.rows
  {
    ReachableOk(models, actions, s);
    assert ViewOk(models, s.now, ViewOf(s, b));
  }

  // ---- Markers ----

  lemma DecideRaisesIff(models: Models, now: int, v: View, snap: Snap, answer: Status)
    requires ViewOk(models, now, v) && SnapOk(v, snap) && snap.job.Some? && AnswerOk(v, answer)
    ensures v.dir.Some?
    ensures Decide(answer, v.dir, snap.inputCount, now).Err? <==> answer == Failed && v.dir.value.failed.Torn?
    ensures answer == Completed ==> v.dir.value.success.Whole? && v.dir.value.results.Some?
  {
    DecisionIsOk(models, now, v, snap, answer);
    match answer
    case Completed =>
    case Failed =>
    case Cancelled =>
    case Queued =>
    case InProgress =>
  }

  lemma HeardIsOk(models: Models, s: System, snap: Snap)
    requires Inv(models, s) && s.poller.Heard? && s.poller.todo != [] && s.poller.todo[0] == snap
    ensures var v := ViewOf(s, snap.id);
            ViewOk(models, s.now, v) && SnapOk(v, snap) && snap.job.Some? && AnswerOk(v, s.poller.answer)
  {
    assert SnapOk(ViewOf(s, snap.id), Todo(s.poller)[0]);
  }

  /** When the poller reads the markers of a completed job, `_SUCCESS` is whole: the fallback for a
      missing marker is never taken and a torn one never parsed. The read raises exactly when the
      job failed and its worker was killed while writing `_FAILED`. */
  lemma MarkerReads(models: Models, actions: seq<Action>, s: System, snap: Snap)
    requires Run(models, INITIAL, actions) == Some(s)
    requires s.poller.Heard? && s.poller.todo != [] && s.poller.todo[0] == snap
    ensures snap.id in s.dirs
    ensures s.poller.answer == Completed ==> s.dirs[snap.id].success.Whole? && s.dirs[snap.id].results.Some?
    ensures Decide(s.poller.answer, Get(s.dirs, snap.id), snap.inputCount, s.now).Err?
       <==> s.poller.answer == Failed && s.dirs[snap.id].failed.Torn?
  {
    ReachableOk(models, actions, s);
    var v := ViewOf(s, snap.id);
    HeardIsOk(models, s, snap);
    assert v.dir == Get(s.dirs, snap.id);
    DecideRaisesIff(models, s.now, v, snap, s.poller.answer);
  }

  /** The job failed and its worker was killed while it wrote `_FAILED`. */
  predicate TornMarker(v: View) {
    && v.job.Some? && v.job.value.status == RayFailed
    && v.dir.Some? && v.dir.value.failed.Torn?
  }

  /** The job of `b` failed, its worker was killed while it wrote `_FAILED`, and the row is still
      active. */
  predicate TornFailure(s: System, b: BatchId) {
    var v := ViewOf(s, b);
    && v.row.Some? && v.row.value.rayJobId.Some? && !v.row.value.status.Terminal()
    && TornMarker(v)
  }

  lemma TornFailureKept(models: Models, s: System, s': System, b: BatchId)
    requires TornFailure(s, b) && Keeps(ViewOf(s, b), ViewOf(s', b))
    requires ViewOf(s', b).job.Some? ==> !ViewOf(s', b).job.value.status.Unrecognized?
    ensures TornFailure(s', b)
  {
  }

  lemma TornUpdateIsNotTerminal(v: View, now: int, u: Update)
    requires v.row.Some? && AnswerOk(v, u.Target()) && UpdateOk(v, now, u)
    requires v.job.value.status == RayFailed && v.dir.Some? && v.dir.value.failed.Torn?
    ensures !UpdateRow(v.row.value, u).status.Terminal()
    ensures UpdateRow(v.row.value, u).rayJobId == v.row.value.rayJobId
  {
  }

  lemma TornFailureCommit(s: System, s': System, b: BatchId)
    requires PollerOk(s) && PollerStep(s, CommitUpdate) == Some(s') && TornFailure(s, b)
    ensures TornFailure(s', b)
  {
    var snap, u := s.poller.todo[0], s.poller.update;
    var v := ViewOf(s, snap.id);
    assert SnapOk(v, Todo(s.poller)[0]);
    CommitIsLocal(s, s');
    if b == snap.id {
      TornUpdateIsNotTerminal(v, s.now, u);
      assert ViewOf(s', b) == v.(row := Some(UpdateRow(v.row.value, u)));
    } else {
      assert ViewOf(s', b) == ViewOf(s, b);
    }
  }

  lemma RayMovesKeeps(models: Models, s: System, j: JobId, to: RayStatus, s': System, b: BatchId)
    requires Inv(models, s) && j in s.jobs && MayMove(s.jobs[j], to)
    requires s' == s.(jobs := s.jobs[j := Moved(s.jobs[j], to)])
    ensures Keeps(ViewOf(s, b), ViewOf(s', b))
  {
    var x := s.jobs[j].batch;
    assert ViewOk(models, s.now, ViewOf(s, x));
    assert s.dirs[x := s.dirs[x]] == s.dirs;
    JobIsLocal(s, j, Moved(s.jobs[j], to), s.dirs[x], s');
    RayMovesViewOk(models, s.now, ViewOf(s, x), to);
    KeepsSelf(ViewOf(s, b));
  }

  lemma WorkShape(models: Models, s: System, j: JobId, w: Worker.Action, s': System) returns (after: Worker.Config)
    requires WorkStep(models, s, j, w) == Some(s')
    ensures j in s.jobs && s.jobs[j].batch in s.dirs && !s.jobs[j].status.Ended()
    ensures var b := s.jobs[j].batch;
            && Worker.Step(models(b), Worker.Config(s.jobs[j].process, s.dirs[b]), w) == Some(after)
            && s' == s.(jobs := s.jobs[j := s.jobs[j].(process := after.process)], dirs := s.dirs[b := after.dir])
  {
    var b := s.jobs[j].batch;
    after := Worker.Step(models(b), Worker.Config(s.jobs[j].process, s.dirs[b]), w).value;
  }

  lemma WorkKeeps(models: Models, s: System, j: JobId, w: Worker.Action, s': System, b: BatchId)
    requires Inv(models, s) && WorkStep(models, s, j, w) == Some(s')
    ensures Keeps(ViewOf(s, b), ViewOf(s', b))
  {
    var after := WorkShape(models, s, j, w, s');
    var x := s.jobs[j].batch;
    assert ViewOk(models, s.now, ViewOf(s, x));
    JobIsLocal(s, j, s.jobs[j].(process := after.process), after.dir, s');
    WorkViewOk(models, s.now, ViewOf(s, x), w, after);
    KeepsSelf(ViewOf(s, b));
  }

  lemma RayAcceptsKeeps(models: Models, s: System, x: BatchId, j: JobId, s': System, b: BatchId)
    requires Inv(models, s) && x in s.inflight && j !in s.jobs
    requires s' == s.(inflight := s.inflight - {x}, jobOf := s.jobOf[x := j],
                      jobs := s.jobs[j := Job(x, Pending, Worker.NotStarted)])
    ensures Keeps(ViewOf(s, b), ViewOf(s', b))
  {
    KeepsSelf(ViewOf(s, b));
    assert ViewOk(models, s.now, ViewOf(s, x));
    RayAcceptsIsLocal(s, x, j, s');
  }

  lemma RestartKeeps(s: System, b: BatchId)
    ensures Keeps(ViewOf(s, b), ViewOf(Restarted(s), b))
  {
    assert ViewOf(Restarted(s), b) == ViewOf(s, b).(handler := None);
  }

  lemma RayStepKeeps(models: Models, s: System, a: Action, s': System, b: BatchId)
    requires !HandlerAction(a) && !PollerAction(a) && !ReaderAction(a)
    requires Inv(models, s) && RayStep(models, s, a) == Some(s')
    ensures Keeps(ViewOf(s, b), ViewOf(s', b))
  {
    if a.RayMoves? {
      RayMovesKeeps(models, s, a.j, a.to, s', b);
    } else if a.Work? {
      WorkKeeps(models, s, a.j, a.w, s', b);
    } else if a.RayAccepts? {
      RayAcceptsKeeps(models, s, a.b, a.j, s', b);
    } else if a.Restart? {
      RestartKeeps(s, b);
    } else {
      KeepsSelf(ViewOf(s, b));
      assert ViewOf(s', b) == ViewOf(s, b);
    }
  }

  lemma HandlerKeepsAll(models: Models, s: System, a: Action, s': System, b: BatchId)
    requires Inv(models, s) && HandlerAction(a) && HandlerStep(s, a) == Some(s')
    ensures Keeps(ViewOf(s, b), ViewOf(s', b))
  {
    HandlerIsLocal(s, a, s', b);
    HandlerKeeps(models, s, a, s');
    KeepsSelf(ViewOf(s, b));
  }

  lemma StepKeeps(models: Models, s: System, a: Action, s': System, b: BatchId)
    requires Inv(models, s) && Step(models, s, a) == Some(s') && !a.CommitUpdate?
    ensures Keeps(ViewOf(s, b), ViewOf(s', b))
  {
    if HandlerAction(a) {
      IsHandlerStep(models, s, a);
      HandlerKeepsAll(models, s, a, s', b);
    } else if PollerAction(a) {
      IsPollerStep(models, s, a);
      PollerIsQuiet(s, a, s');
      KeepsSelf(ViewOf(s, b));
    } else if ReaderAction(a) {
      IsReaderStep(models, s, a);
      ReaderIsLocal(s, a, s');
      KeepsSelf(ViewOf(s, b));
    } else {
      RayStepKeeps(models, s, a, s', b);
    }
  }

  lemma TornFailureStep(models: Models, s: System, a: Action, s': System, b: BatchId)
    requires Inv(models, s) && Step(models, s, a) == Some(s') && TornFailure(s, b)
    ensures TornFailure(s', b)
  {
    StepKeepsInv(models, s, a, s');
    assert ViewOk(models, s.now, ViewOf(s, b)) && ViewOk(models, s'.now, ViewOf(s', b));
    if a.CommitUpdate? {
      TornFailureCommit(s, s', b);
    } else {
      StepKeeps(models, s, a, s', b);
      TornFailureKept(models, s, s', b);
    }
  }

  /** A batch in that state is never reported: its row stays active in every later state. */
  lemma {:induction false} TornFailureIsNeverReported(models: Models, before: seq<Action>, s: System,
                                                      after: seq<Action>, s': System, b: BatchId)
    requires Run(models, INITIAL, before) == Some(s) && Run(models, s, after) == Some(s')
    requires TornFailure(s, b)
    ensures Inv(models, s') && TornFailure(s', b)
  {
    if after == [] {
      ReachableOk(models, before, s);
    } else {
      var last := |after| - 1;
      var middle := Run(models, s, after[..last]).value;
      TornFailureIsNeverReported(models, before, s, after[..last], middle, b);
      StepKeepsInv(models, middle, after[last], s');
      TornFailureStep(models, middle, after[last], s', b);
    }
  }

  // ---- After a job's end ----

  predicate JobEnded(v: View) {
    v.row.Some? && v.row.value.rayJobId.Some? && v.job.Some? && v.job.value.status.Ended()
  }

  lemma JobStaysEnded(models: Models, now: int, v: View, v': View)
    requires JobEnded(v) && Keeps(v, v') && ViewOk(models, now, v')
    ensures JobEnded(v') && v'.dir == v.dir
  {
  }

  lemma EndedAfterCommit(s: System, s': System, b: BatchId)
    requires PollerOk(s) && PollerStep(s, CommitUpdate) == Some(s') && JobEnded(ViewOf(s, b))
    ensures JobEnded(ViewOf(s', b)) && ViewOf(s', b).dir == ViewOf(s, b).dir
  {
    assert SnapOk(ViewOf(s, Todo(s.poller)[0].id), Todo(s.poller)[0]);
    CommitIsLocal(s, s');
  }

  lemma EndedAfterStep(models: Models, s: System, a: Action, s': System, b: BatchId)
    requires Inv(models, s) && Step(models, s, a) == Some(s') && JobEnded(ViewOf(s, b))
    ensures JobEnded(ViewOf(s', b)) && ViewOf(s', b).dir == ViewOf(s, b).dir
  {
    StepKeepsInv(models, s, a, s');
    assert ViewOk(models, s'.now, ViewOf(s', b));
    if a.CommitUpdate? {
      IsPollerStep(models, s, a);
      EndedAfterCommit(s, s', b);
    } else {
      StepKeeps(models, s, a, s', b);
      JobStaysEnded(models, s'.now, ViewOf(s, b), ViewOf(s', b));
    }
  }

  /** Once the job of an attached row has ended, its files stay as they are, whatever anyone does. */
  lemma {:induction false} FilesStay(models: Models, before: seq<Action>, s: System, after: seq<Action>, s': System,
                                     b: BatchId)
    requires Run(models, INITIAL, before) == Some(s) && Run(models, s, after) == Some(s')
    requires JobEnded(ViewOf(s, b))
    ensures Inv(models, s') && JobEnded(ViewOf(s', b)) && ViewOf(s', b).dir == ViewOf(s, b).dir
  {
    if after == [] {
      ReachableOk(models, before, s);
    } else {
      var last := |after| - 1;
      var middle := Run(models, s, after[..last]).value;
      FilesStay(models, before, s, after[..last], middle, b);
      StepKeepsInv(models, middle, after[last], s');
      EndedAfterStep(models, middle, after[last], s', b);
    }
  }

  // ---- What GET /results serves ----

  lemma StreamedMeans(models: Models, s: System, r: nat)
    requires Inv(models, s) && r in s.readers && s.readers[r].Done? && s.readers[r].response.Streamed?
    ensures var v := ViewOf(s, s.readers[r].batch);
            JobEnded(v) && v.dir.Some? && v.dir.value.results == Some(s.readers[r].response.body)
  {
    var v := ViewOf(s, s.readers[r].batch);
    assert ReaderOk(v, s.readers[r]) && ViewOk(models, s.now, v);
  }

  /** Asking again gives the same answer: two 200 responses for one batch, at any two moments of any run,
      carry the same body. */
  lemma AnswersAgree(models: Models, before: seq<Action>, s: System, r: nat, after: seq<Action>, s': System, q: nat)
    requires Run(models, INITIAL, before) == Some(s) && Run(models, s, after) == Some(s')
    requires r in s.readers && s.readers[r].Done? && s.readers[r].response.Streamed?
    requires q in s'.readers && s'.readers[q].Done? && s'.readers[q].response.Streamed?
    requires s'.readers[q].batch == s.readers[r].batch
    ensures s'.readers[q].response.body == s.readers[r].response.body
  {
    ReachableOk(models, before, s);
    StreamedMeans(models, s, r);
    FilesStay(models, before, s, after, s', s.readers[r].batch);
    StreamedMeans(models, s', q);
  }

  /** What a results handler makes of the row it looked up. */
  predicate AnswersRow(row: Option<Row>, reader: Reader) {
    match reader
    case Found(_) => row.Some? && row.value.status == Completed
    case Opened(_, _) => row.Some? && row.value.status == Completed
    case Done(_, response) =>
      if row.None? then response == NotFound
      else if row.value.status != Completed then response == Conflict(row.value.status)
      else response.Streamed? || response.ServerError?
  }

  lemma LookedUp(s: System, r: nat, b: BatchId, t: System)
    requires ReaderStep(s, LookUp(r, b)) == Some(t)
    ensures r in t.readers && t.readers[r].batch == b && AnswersRow(Get(s.rows, b), t.readers[r])
  {
  }

  lemma ReaderStepRemembers(s: System, a: Action, s': System, r: nat, row: Option<Row>)
    requires ReaderAction(a) && ReaderStep(s, a) == Some(s') && !(a.LookUp? && a.r == r)
    requires r in s'.readers
    ensures r in s.readers && s'.readers[r].batch == s.readers[r].batch
    ensures AnswersRow(row, s.readers[r]) ==> AnswersRow(row, s'.readers[r])
  {
  }

  lemma OthersKeepReaders(models: Models, s: System, a: Action, s': System, r: nat)
    requires Step(models, s, a) == Some(s') && !ReaderAction(a) && r in s'.readers
    ensures r in s.readers && s'.readers[r] == s.readers[r]
  {
    if HandlerAction(a) {
      IsHandlerStep(models, s, a);
      HandlerIsLocal(s, a, s', a.b);
    } else if a.CommitUpdate? {
      IsPollerStep(models, s, a);
      CommitShape(s, s');
    } else if PollerAction(a) {
      IsPollerStep(models, s, a);
      PollerIsQuiet(s, a, s');
    } else {
      assert RayStep(models, s, a) == Some(s');
    }
  }

  lemma {:induction false} ReaderRemembers(models: Models, t: System, after: seq<Action>, s': System, r: nat,
                                           row: Option<Row>)
    requires Inv(models, t) && r in t.readers && AnswersRow(row, t.readers[r])
    requires Run(models, t, after) == Some(s') && forall a | a in after :: !(a.LookUp? && a.r == r)
    ensures Inv(models, s')
    ensures r in s'.readers ==> s'.readers[r].batch == t.readers[r].batch && AnswersRow(row, s'.readers[r])
  {
    if after != [] {
      var last, a := |after| - 1, after[|after| - 1];
      var before := Run(models, t, after[..last]).value;
      ReaderRemembers(models, t, after[..last], before, r, row);
      StepKeepsInv(models, before, a, s');
      if r in s'.readers {
        if ReaderAction(a) {
          IsReaderStep(models, before, a);
          ReaderStepRemembers(before, a, s', r, row);
        } else {
          OthersKeepReaders(models, before, a, s', r);
        }
      }
    }
  }

  /** Whatever happens between a results request's lookup and its answer, the answer is decided by the row that
      was looked up: 404 if there was none, 409 with its status if it was not completed, 200 if it was. */
  lemma LookUpDecides(models: Models, before: seq<Action>, s: System, r: nat, b: BatchId, t: System,
                      after: seq<Action>, s': System)
    requires Run(models, INITIAL, before) == Some(s) && Step(models, s, LookUp(r, b)) == Some(t)
    requires Run(models, t, after) == Some(s') && forall a | a in after :: !(a.LookUp? && a.r == r)
    requires r in s'.readers && s'.readers[r].Done?
    ensures s'.readers[r].batch == b
    ensures var response := s'.readers[r].response;
            && (response == NotFound <==> b !in s.rows)
            && (response.Conflict? <==> b in s.rows && s.rows[b].status != Completed)
            && (response.Conflict? ==> response.status == s.rows[b].status)
            && (response.Streamed? <==> b in s.rows && s.rows[b].status == Completed)
  {
    ReachableOk(models, before, s);
    StepKeepsInv(models, s, LookUp(r, b), t);
    IsReaderStep(models, s, LookUp(r, b));
    LookedUp(s, r, b, t);
    ReaderRemembers(models, t, after, s', r, Get(s.rows, b));
    assert ReaderOk(ViewOf(s', b), s'.readers[r]);
  }

  /** The main theorem. In every reachable state, a results handler that has answered 200 has sent
      one row for each submitted prompt, under the ids "0" to "n-1", each row holding what the model made of
      the prompt its id names, and the batch row counts those with and without an error; a client reads exactly these rows from the
      lines of the body; and none ever answers 500. */
  lemma ResultsAreRight(models: Models, actions: seq<Action>, s: System, r: nat)
    requires Run(models, INITIAL, actions) == Some(s)
    requires r in s.readers && s.readers[r].Done?
    ensures s.readers[r].response != ServerError
    ensures s.readers[r].response.Streamed? ==>
              var b, body := s.readers[r].batch, s.readers[r].response.body;
              && b in s.posted && b in s.rows && s.rows[b].status == Completed
              && var prompts := s.posted[b];
              && |body| == |prompts| == s.rows[b].inputCount
              && (forall i | 0 <= i < |prompts| ::
                    PredictRow(models(b), InputRow(Decimal(i), prompts[i])) in body)
              && (forall k | 0 <= k < |body| ::
                    var i := NumberOf(body[k].id);
                    i < |prompts| && body[k] == PredictRow(models(b), InputRow(Decimal(i), prompts[i]))
                    && body[k].prompt == prompts[i] && RowHolds(models(b)(prompts[i]), body[k]))
              && (forall k, l | 0 <= k < l < |body| :: body[k].id != body[l].id)
              && s.rows[b].failedCount == |FailedAt(body)|
              && s.rows[b].completedCount == |body| - |FailedAt(body)|
              && ClientRows(EncodeResults(body)) == Some(body)
  {
    ReachableOk(models, actions, s);
    var b := s.readers[r].batch;
    var v := ViewOf(s, b);
    assert ReaderOk(v, s.readers[r]) && ViewOk(models, s.now, v);
    if s.readers[r].response.Streamed? {
      CompleteMeans(models(b), v.posted.value, s.readers[r].response.body);
      ResultsRoundTrip(s.readers[r].response.body);
      FailedCountIs(s.readers[r].response.body);
    }
  }
}
