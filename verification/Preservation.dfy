/** Every step of every party keeps the invariant. */
module Preservation {
  import opened Wrappers
  import opened Jsonl
  import opened Domain
  import opened Table
  import opened Api
  import opened Protocol
  import opened Invariant
  import Worker

  // ---- create_batch ----

  lemma InputIsLocal(s: System, a: Action, s': System, x: BatchId)
    requires InputAction(a) && InputStep(s, a) == Some(s')
    ensures x != a.b ==> ViewOf(s', x) == ViewOf(s, x)
    ensures s'.now == s.now && s'.poller == s.poller && s'.readers == s.readers
    ensures s'.jobs == s.jobs && s'.jobOf == s.jobOf
  {
  }

  lemma SubmitIsLocal(s: System, a: Action, s': System, x: BatchId)
    requires SubmitAction(a) && SubmitStep(s, a) == Some(s')
    ensures x != a.b ==> ViewOf(s', x) == ViewOf(s, x)
    ensures s'.now == s.now && s'.poller == s.poller && s'.readers == s.readers
    ensures s'.jobs == s.jobs && s'.jobOf == s.jobOf
  {
  }

  lemma RecordIsLocal(s: System, a: Action, s': System, x: BatchId)
    requires HandlerAction(a) && !InputAction(a) && !SubmitAction(a) && RecordStep(s, a) == Some(s')
    ensures x != a.b ==> ViewOf(s', x) == ViewOf(s, x)
    ensures s'.now == s.now && s'.poller == s.poller && s'.readers == s.readers
    ensures s'.jobs == s.jobs && s'.jobOf == s.jobOf
  {
  }

  /** A handler's step touches its own batch only. */
  lemma HandlerIsLocal(s: System, a: Action, s': System, x: BatchId)
    requires HandlerAction(a) && HandlerStep(s, a) == Some(s')
    ensures x != a.b ==> ViewOf(s', x) == ViewOf(s, x)
    ensures s'.now == s.now && s'.poller == s.poller && s'.readers == s.readers
    ensures s'.jobs == s.jobs && s'.jobOf == s.jobOf
  {
    if InputAction(a) {
      InputIsLocal(s, a, s', x);
    } else if SubmitAction(a) {
      SubmitIsLocal(s, a, s', x);
    } else {
      RecordIsLocal(s, a, s', x);
    }
  }

  lemma IsHandlerStep(models: Models, s: System, a: Action)
    requires HandlerAction(a)
    ensures Step(models, s, a) == HandlerStep(s, a)
  {
  }

  lemma IsPollerStep(models: Models, s: System, a: Action)
    requires PollerAction(a)
    ensures Step(models, s, a) == PollerStep(s, a)
  {
  }

  lemma IsReaderStep(models: Models, s: System, a: Action)
    requires ReaderAction(a)
    ensures Step(models, s, a) == ReaderStep(s, a)
  {
  }

  lemma PostOk(models: Models, s: System, a: Action, s': System)
    requires Inv(models, s) && a.Post? && InputStep(s, a) == Some(s')
    ensures ViewOk(models, s.now, ViewOf(s', a.b)) && Keeps(ViewOf(s, a.b), ViewOf(s', a.b))
  {
    assert ViewOk(models, s.now, ViewOf(s, a.b));
    var rows := NumberRows(a.prompts);
    assert rows[0..] == rows;
    assert [] + EncodeRows(rows) == EncodeRows(rows);
  }

  lemma WriteLineStepOk(models: Models, s: System, a: Action, s': System)
    requires Inv(models, s) && a.WriteLine? && InputStep(s, a) == Some(s')
    ensures ViewOk(models, s.now, ViewOf(s', a.b)) && Keeps(ViewOf(s, a.b), ViewOf(s', a.b))
  {
    var v := ViewOf(s, a.b);
    assert ViewOk(models, s.now, v);
    WriteLineOk(v.posted.value, v.handler.value.next, v.dir.value.input.value);
  }

  lemma CloseInputOk(models: Models, s: System, a: Action, s': System)
    requires Inv(models, s) && a.CloseInput? && InputStep(s, a) == Some(s')
    ensures ViewOk(models, s.now, ViewOf(s', a.b)) && Keeps(ViewOf(s, a.b), ViewOf(s', a.b))
  {
    var v := ViewOf(s, a.b);
    assert ViewOk(models, s.now, v);
    var rows := NumberRows(v.posted.value);
    assert rows[|rows|..] == [];
    assert v.dir.value.input.value + [] == v.dir.value.input.value;
  }

  lemma WritingStepOk(models: Models, s: System, a: Action, s': System)
    requires InputAction(a)
    requires Inv(models, s) && HandlerStep(s, a) == Some(s')
    ensures ViewOk(models, s.now, ViewOf(s', a.b)) && Keeps(ViewOf(s, a.b), ViewOf(s', a.b))
  {
    if a.Post? {
      PostOk(models, s, a, s');
    } else if a.WriteLine? {
      WriteLineStepOk(models, s, a, s');
    } else {
      CloseInputOk(models, s, a, s');
    }
  }

  lemma CommitRowOk(models: Models, s: System, a: Action, s': System)
    requires Inv(models, s) && a.CommitRow? && SubmitStep(s, a) == Some(s')
    ensures ViewOk(models, s.now, ViewOf(s', a.b)) && Keeps(ViewOf(s, a.b), ViewOf(s', a.b))
  {
    assert ViewOk(models, s.now, ViewOf(s, a.b));
  }

  predicate MovesOn(a: Action) {
    a.CallSubmit? || a.SubmitReturns? || a.SubmitRaises? || a.CountFailure? || a.CountSubmitted?
    || a.Respond? || a.DropHandler?
  }

  /** Only the handler moves on; calling `submit_job` puts a request on its way to Ray. */
  predicate MovedOn(v: View, v': View) {
    && v.handler.Some?
    && v' == v.(handler := v'.handler, inflight := v.inflight || v'.handler == Some(Submitting))
    && (v'.handler.None?
        || match v'.handler.value
           case Submitting => v.handler.value == RowCommitted
           case GotJob(j) => v.handler.value == Submitting && v.jobId == Some(j)
           case SubmitRaised(_) => v.handler.value == Submitting
           case FailureCounted(_) => v.handler.value.SubmitRaised?
           case SubmitCounted => v.handler.value == JobAttached
           case _ => false)
  }

  lemma SubmittingView(s: System, a: Action, s': System)
    requires JobsOk(s) && SubmitAction(a) && MovesOn(a) && SubmitStep(s, a) == Some(s')
    ensures MovedOn(ViewOf(s, a.b), ViewOf(s', a.b))
  {
  }

  lemma RecordingView(s: System, a: Action, s': System)
    requires HandlerAction(a) && !InputAction(a) && !SubmitAction(a) && MovesOn(a) && RecordStep(s, a) == Some(s')
    ensures MovedOn(ViewOf(s, a.b), ViewOf(s', a.b))
  {
  }

  lemma MovingOnView(s: System, a: Action, s': System)
    requires JobsOk(s) && HandlerAction(a) && MovesOn(a) && HandlerStep(s, a) == Some(s')
    ensures MovedOn(ViewOf(s, a.b), ViewOf(s', a.b))
  {
    if SubmitAction(a) {
      SubmittingView(s, a, s');
    } else {
      RecordingView(s, a, s');
    }
  }

  lemma MovedOnOk(models: Models, now: int, v: View, v': View)
    requires ViewOk(models, now, v) && MovedOn(v, v')
    ensures ViewOk(models, now, v') && Keeps(v, v')
  {
  }

  lemma MovingOnOk(models: Models, s: System, a: Action, s': System)
    requires HandlerAction(a) && MovesOn(a)
    requires Inv(models, s) && HandlerStep(s, a) == Some(s')
    ensures ViewOk(models, s.now, ViewOf(s', a.b)) && Keeps(ViewOf(s, a.b), ViewOf(s', a.b))
  {
    MovingOnView(s, a, s');
    assert ViewOk(models, s.now, ViewOf(s, a.b));
    MovedOnOk(models, s.now, ViewOf(s, a.b), ViewOf(s', a.b));
  }

  /** The row that `_mark_failed` writes is as good as the untouched one. */
  lemma FailedRowOk(models: Models, now: int, v: View, error: string)
    requires ViewOk(models, now, v) && v.handler.Some? && v.handler.value.FailureCounted? && BlamesSubmission(error)
    ensures v.row.Some?
    ensures var row := v.row.value.(status := Failed, error := Some(error), completedAt := Some(now));
            var v' := v.(handler := None, row := Some(row));
            ViewOk(models, now, v') && Keeps(v, v')
  {
  }

  lemma ErrorBlamesSubmission(typeName: string)
    ensures BlamesSubmission(SubmissionError(typeName))
  {
  }

  lemma CommitFailedOk(models: Models, s: System, a: Action, s': System)
    requires Inv(models, s) && a.CommitFailed? && RecordStep(s, a) == Some(s')
    ensures ViewOk(models, s.now, ViewOf(s', a.b)) && Keeps(ViewOf(s, a.b), ViewOf(s', a.b))
  {
    var v := ViewOf(s, a.b);
    assert ViewOk(models, s.now, v);
    ErrorBlamesSubmission(v.handler.value.typeName);
    FailedRowOk(models, s.now, v, SubmissionError(v.handler.value.typeName));
  }

  lemma CommitJobIdOk(models: Models, s: System, a: Action, s': System)
    requires Inv(models, s) && a.CommitJobId? && RecordStep(s, a) == Some(s')
    ensures ViewOk(models, s.now, ViewOf(s', a.b)) && Keeps(ViewOf(s, a.b), ViewOf(s', a.b))
  {
    var v := ViewOf(s, a.b);
    assert ViewOk(models, s.now, v);
    assert ViewOf(s', a.b) == v.(handler := Some(JobAttached), row := Some(v.row.value.(rayJobId := v.jobId)));
  }

  lemma HandlerKeepsInv(models: Models, s: System, a: Action, s': System)
    requires Inv(models, s) && HandlerAction(a) && HandlerStep(s, a) == Some(s')
    ensures Inv(models, s')
  {
    forall x: BatchId ensures x != a.b ==> ViewOf(s', x) == ViewOf(s, x) {
      HandlerIsLocal(s, a, s', x);
    }
    HandlerIsLocal(s, a, s', a.b);
    if a.Post? || a.WriteLine? || a.CloseInput? {
      WritingStepOk(models, s, a, s');
    } else if a.CommitRow? {
      CommitRowOk(models, s, a, s');
    } else if a.CommitFailed? {
      CommitFailedOk(models, s, a, s');
    } else if a.CommitJobId? {
      CommitJobIdOk(models, s, a, s');
    } else {
      MovingOnOk(models, s, a, s');
    }
    LocalStep(models, s, s', a.b);
  }

  // ---- Ray and the worker ----

  lemma RayAcceptsViewOk(models: Models, now: int, b: BatchId, v: View, j: JobId)
    requires ViewOk(models, now, v) && v.inflight
    ensures var v' := v.(inflight := false, jobId := Some(j), job := Some(Job(b, Pending, Worker.NotStarted)));
            ViewOk(models, now, v') && Keeps(v, v')
  {
    assert v.dir.value == Worker.FreshDir(v.posted.value);
    Worker.FirstRunStarts(models(v.batch), v.posted.value);
  }

  lemma RayAcceptsIsLocal(s: System, b: BatchId, j: JobId, s': System)
    requires JobsOk(s) && b !in s.jobOf && j !in s.jobs
    requires s' == s.(inflight := s.inflight - {b}, jobOf := s.jobOf[b := j],
                      jobs := s.jobs[j := Job(b, Pending, Worker.NotStarted)])
    ensures JobsOk(s')
    ensures forall x: BatchId | x != b :: ViewOf(s', x) == ViewOf(s, x)
    ensures ViewOf(s', b) == ViewOf(s, b).(inflight := false, jobId := Some(j),
                                           job := Some(Job(b, Pending, Worker.NotStarted)))
  {
  }

  lemma RayAcceptsKeepsInv(models: Models, s: System, b: BatchId, j: JobId, s': System)
    requires Inv(models, s) && b in s.inflight && j !in s.jobs
    requires s' == s.(inflight := s.inflight - {b}, jobOf := s.jobOf[b := j],
                      jobs := s.jobs[j := Job(b, Pending, Worker.NotStarted)])
    ensures Inv(models, s')
  {
    assert ViewOk(models, s.now, ViewOf(s, b));
    RayAcceptsIsLocal(s, b, j, s');
    RayAcceptsViewOk(models, s.now, b, ViewOf(s, b), j);
    LocalStep(models, s, s', b);
  }

  /** A job's own steps touch its batch only, and there only the directory and the job. */
  lemma JobIsLocal(s: System, j: JobId, job: Job, dir: Dir, s': System)
    requires JobsOk(s) && j in s.jobs && job.batch == s.jobs[j].batch && job.batch in s.dirs
    requires s' == s.(jobs := s.jobs[j := job], dirs := s.dirs[job.batch := dir])
    ensures JobsOk(s')
    ensures forall x: BatchId | x != job.batch :: ViewOf(s', x) == ViewOf(s, x)
    ensures ViewOf(s', job.batch) == ViewOf(s, job.batch).(dir := Some(dir), job := Some(job))
    ensures ViewOf(s, job.batch).job == Some(s.jobs[j]) && ViewOf(s, job.batch).dir == Some(s.dirs[job.batch])
  {
  }

  lemma RayMovesViewOk(models: Models, now: int, v: View, to: RayStatus)
    requires ViewOk(models, now, v) && v.job.Some? && v.jobId.Some? && MayMove(v.job.value, to)
    ensures var v' := v.(job := Some(Moved(v.job.value, to)));
            ViewOk(models, now, v') && Keeps(v, v')
  {
    var job := Moved(v.job.value, to);
    assert Worker.FirstRun(models(v.batch), v.posted.value, Worker.Config(job.process, v.dir.value));
  }

  lemma RayMovesKeepsInv(models: Models, s: System, j: JobId, to: RayStatus, s': System)
    requires Inv(models, s) && j in s.jobs && MayMove(s.jobs[j], to)
    requires s' == s.(jobs := s.jobs[j := Moved(s.jobs[j], to)])
    ensures Inv(models, s')
  {
    var b := s.jobs[j].batch;
    assert ViewOk(models, s.now, ViewOf(s, b));
    assert s.dirs[b := s.dirs[b]] == s.dirs;
    JobIsLocal(s, j, Moved(s.jobs[j], to), s.dirs[b], s');
    RayMovesViewOk(models, s.now, ViewOf(s, b), to);
    LocalStep(models, s, s', b);
  }

  lemma WorkViewOk(models: Models, now: int, v: View, w: Worker.Action, after: Worker.Config)
    requires ViewOk(models, now, v) && v.job.Some? && v.jobId.Some? && !v.job.value.status.Ended()
    requires Worker.Step(models(v.batch), Worker.Config(v.job.value.process, v.dir.value), w) == Some(after)
    ensures var v' := v.(dir := Some(after.dir), job := Some(v.job.value.(process := after.process)));
            ViewOk(models, now, v') && Keeps(v, v')
  {
    Worker.FirstRunStep(models(v.batch), v.posted.value, Worker.Config(v.job.value.process, v.dir.value), w, after);
    assert after.dir.input == v.dir.value.input;
    assert !v.row.value.status.Completed?;
  }

  lemma WorkKeepsInv(models: Models, s: System, j: JobId, w: Worker.Action, s': System)
    requires Inv(models, s) && WorkStep(models, s, j, w) == Some(s')
    ensures Inv(models, s')
  {
    var b := s.jobs[j].batch;
    assert ViewOk(models, s.now, ViewOf(s, b));
    var after := Worker.Step(models(b), Worker.Config(s.jobs[j].process, s.dirs[b]), w).value;
    JobIsLocal(s, j, s.jobs[j].(process := after.process), after.dir, s');
    WorkViewOk(models, s.now, ViewOf(s, b), w, after);
    LocalStep(models, s, s', b);
  }

  // ---- The poller ----

  lemma SameViews(models: Models, s: System, s': System)
    requires Inv(models, s) && JobsOk(s') && PollerOk(s')
    requires forall x: BatchId :: ViewOf(s', x) == ViewOf(s, x)
    requires s'.now == s.now && s'.readers == s.readers
    ensures Inv(models, s')
  {
    forall x: BatchId ensures ViewOk(models, s'.now, ViewOf(s', x)) {
      assert ViewOk(models, s.now, ViewOf(s, x));
    }
    forall r | r in s'.readers ensures ReaderOk(ViewOf(s', s'.readers[r].batch), s'.readers[r]) {
      assert ReaderOk(ViewOf(s, s.readers[r].batch), s.readers[r]);
    }
  }

  /** A sweep starts with a faithful snapshot of the active rows. */
  lemma SnapshotOk(models: Models, s: System, order: seq<BatchId>, s': System)
    requires Inv(models, s) && PollerStep(s, StartSweep(order)) == Some(s')
    ensures PollerOk(s')
  {
    var todo := s'.poller.todo;
    forall i | 0 <= i < |todo| ensures SnapOk(ViewOf(s', todo[i].id), todo[i]) {
      assert order[i] in order;
      assert todo[i] == SnapOf(s.rows, order[i]);
      assert ViewOk(models, s.now, ViewOf(s, order[i]));
    }
    forall i, k | 0 <= i < k < |todo| ensures todo[i].id != todo[k].id {
      assert order[i] in order && order[k] in order;
      assert todo[i] == SnapOf(s.rows, order[i]) && todo[k] == SnapOf(s.rows, order[k]);
    }
  }

  /** Dropping the head of the sweep's list, with nothing else changed. */
  lemma TailOk(s: System, s': System)
    requires TodoOk(s) && Todo(s.poller) != []
    requires s'.poller == Sweeping(Todo(s.poller)[1..])
    requires forall x: BatchId | x != Todo(s.poller)[0].id :: ViewOf(s', x) == ViewOf(s, x)
    ensures PollerOk(s')
  {
    var todo, rest := Todo(s.poller), s'.poller.todo;
    forall i | 0 <= i < |rest| ensures SnapOk(ViewOf(s', rest[i].id), rest[i]) {
      assert rest[i] == todo[i + 1];
      assert SnapOk(ViewOf(s, todo[i + 1].id), todo[i + 1]);
      assert todo[0].id != todo[i + 1].id;
    }
    forall i, k | 0 <= i < k < |rest| ensures rest[i].id != rest[k].id {
      assert rest[i] == todo[i + 1] && rest[k] == todo[k + 1];
    }
  }

  /** Ray's answer for a row of the sweep is neither behind the row nor ahead of the job. */
  lemma AnswerIsOk(models: Models, now: int, v: View, snap: Snap)
    requires ViewOk(models, now, v) && SnapOk(v, snap) && snap.job.Some?
    ensures v.job.Some? && v.jobId == snap.job && AnswerOk(v, MapStatus(v.job.value.status))
  {
  }

  /** What the poller decides after reading the markers is what the worker left: in particular the
      completed-but-no-marker fallback is never taken and no torn `_SUCCESS` is ever parsed. */
  lemma DecisionIsOk(models: Models, now: int, v: View, snap: Snap, answer: Status)
    requires ViewOk(models, now, v) && SnapOk(v, snap) && snap.job.Some? && AnswerOk(v, answer)
    ensures answer == Completed ==> v.dir.value.success.Whole?
    ensures Decide(answer, v.dir, snap.inputCount, now).Ok? ==>
              var u := Decide(answer, v.dir, snap.inputCount, now).value;
              u.Target() == answer && UpdateOk(v, now, u)
  {
    DecideTargets(answer, v.dir, snap.inputCount, now);
    if answer == Completed {
      assert v.job.value.status == Succeeded;
    }
  }

  lemma MovingShape(s: System, a: Action, s': System)
    requires a.StartSweep? || a.SkipUnattached? || a.EndSweep? || a.GiveUp?
    requires SweepStep(s, a) == Some(s')
    ensures s' == s.(poller := s'.poller)
  {
  }

  lemma AskingShape(s: System, a: Action, s': System)
    requires (a.AskRay? || a.ReadMarkers?) && PollStep(s, a) == Some(s')
    ensures s' == s.(poller := s'.poller)
  {
  }

  lemma IncrementedShape(s: System)
    requires s.poller.Deciding? && s.poller.todo != []
    ensures Incremented(s) == s.(metrics := Incremented(s).metrics)
  {
  }

  lemma LosingShape(s: System, s': System)
    requires PollStep(s, LoseUpdate) == Some(s')
    ensures s' == s.(poller := s'.poller, metrics := s'.metrics, ledger := s'.ledger)
  {
    IncrementedShape(s);
  }

  lemma QuietShape(s: System, a: Action, s': System)
    requires PollerAction(a) && !a.CommitUpdate? && PollerStep(s, a) == Some(s')
    ensures s' == s.(poller := s'.poller, metrics := s'.metrics, ledger := s'.ledger)
  {
    if a.LoseUpdate? {
      LosingShape(s, s');
    } else if a.AskRay? || a.ReadMarkers? {
      AskingShape(s, a, s');
    } else {
      MovingShape(s, a, s');
    }
  }

  /** Every poller step but the commit leaves all batches alone. */
  lemma PollerIsQuiet(s: System, a: Action, s': System)
    requires PollerAction(a) && !a.CommitUpdate? && PollerStep(s, a) == Some(s')
    ensures forall x: BatchId :: ViewOf(s', x) == ViewOf(s, x)
    ensures s'.now == s.now && s'.readers == s.readers && s'.jobs == s.jobs && s'.jobOf == s.jobOf
  {
    QuietShape(s, a, s');
  }

  lemma SameTodo(s: System, s': System)
    requires TodoOk(s) && Todo(s'.poller) == Todo(s.poller)
    requires forall x: BatchId :: ViewOf(s', x) == ViewOf(s, x)
    ensures TodoOk(s')
  {
    var todo := Todo(s.poller);
    forall i | 0 <= i < |todo| ensures SnapOk(ViewOf(s', todo[i].id), todo[i]) {
      assert SnapOk(ViewOf(s, todo[i].id), todo[i]);
    }
  }

  lemma AskRayOk(models: Models, s: System, s': System)
    requires Inv(models, s) && PollerStep(s, AskRay) == Some(s')
    ensures PollerOk(s')
  {
    var snap := s.poller.todo[0];
    var v := ViewOf(s, snap.id);
    PollerIsQuiet(s, AskRay, s');
    assert ViewOk(models, s.now, v) && SnapOk(v, snap);
    AnswerIsOk(models, s.now, v, snap);
    SameTodo(s, s');
  }

  lemma ReadMarkersOk(models: Models, s: System, s': System)
    requires Inv(models, s) && PollerStep(s, ReadMarkers) == Some(s')
    ensures PollerOk(s')
  {
    var snap := s.poller.todo[0];
    var v := ViewOf(s, snap.id);
    PollerIsQuiet(s, ReadMarkers, s');
    assert ViewOk(models, s.now, v) && SnapOk(v, snap);
    DecisionIsOk(models, s.now, v, snap, s.poller.answer);
    assert v.dir == Get(s.dirs, snap.id);
    if s'.poller.Sweeping? {
      TailOk(s, s');
    } else {
      SameTodo(s, s');
    }
  }

  lemma QuietOk(models: Models, s: System, a: Action, s': System)
    requires Inv(models, s) && PollerAction(a) && PollerStep(s, a) == Some(s')
    requires a.SkipUnattached? || a.LoseUpdate? || a.GiveUp? || a.EndSweep?
    ensures PollerOk(s')
  {
    PollerIsQuiet(s, a, s');
    if !a.EndSweep? {
      TailOk(s, s');
    }
  }

  lemma PollerKeepsInv(models: Models, s: System, a: Action, s': System)
    requires Inv(models, s) && PollerAction(a) && !a.CommitUpdate? && PollerStep(s, a) == Some(s')
    ensures Inv(models, s')
  {
    PollerIsQuiet(s, a, s');
    if a.StartSweep? {
      SnapshotOk(models, s, a.order, s');
    } else if a.AskRay? {
      AskRayOk(models, s, s');
    } else if a.ReadMarkers? {
      ReadMarkersOk(models, s, s');
    } else {
      QuietOk(models, s, a, s');
    }
    SameViews(models, s, s');
  }

  /** The poller's commit moves the row to where its job already is. */
  lemma CommitViewOk(models: Models, now: int, v: View, snap: Snap, u: Update)
    requires ViewOk(models, now, v) && SnapOk(v, snap) && snap.job.Some?
    requires AnswerOk(v, u.Target()) && UpdateOk(v, now, u)
    ensures ViewOk(models, now, v.(row := Some(UpdateRow(v.row.value, u))))
  {
  }

  lemma RowIsLocal(s: System, s': System, b: BatchId, row: Row)
    requires s'.rows == s.rows[b := row]
    requires s'.posted == s.posted && s'.dirs == s.dirs && s'.handlers == s.handlers && s'.inflight == s.inflight
    requires s'.jobs == s.jobs && s'.jobOf == s.jobOf
    ensures ViewOf(s', b) == ViewOf(s, b).(row := Some(row))
    ensures forall x: BatchId | x != b :: ViewOf(s', x) == ViewOf(s, x)
  {
  }

  lemma CommitShape(s: System, s': System)
    requires PollerStep(s, CommitUpdate) == Some(s')
    ensures s' == s.(rows := ApplyUpdate(s.rows, s.poller.todo[0].id, s.poller.update),
                     poller := s'.poller, metrics := s'.metrics)
    ensures s'.poller == Sweeping(s.poller.todo[1..])
  {
  }

  lemma CommitIsLocal(s: System, s': System)
    requires PollerStep(s, CommitUpdate) == Some(s') && s.poller.todo[0].id in s.rows
    ensures var b, u := s.poller.todo[0].id, s.poller.update;
            && ViewOf(s', b) == ViewOf(s, b).(row := Some(UpdateRow(s.rows[b], u)))
            && forall x: BatchId | x != b :: ViewOf(s', x) == ViewOf(s, x)
    ensures s'.now == s.now && s'.readers == s.readers && s'.jobs == s.jobs && s'.jobOf == s.jobOf
  {
    CommitShape(s, s');
    RowIsLocal(s, s', s.poller.todo[0].id, UpdateRow(s.rows[s.poller.todo[0].id], s.poller.update));
  }

  lemma PublishedStays(v: View, row: Row, reader: Reader)
    requires ReaderOk(v, reader) && v.row.Some? && !v.row.value.status.Terminal()
    ensures ReaderOk(v.(row := Some(row)), reader)
  {
  }

  lemma CommitKeepsReaders(s: System, s': System)
    requires PollerStep(s, CommitUpdate) == Some(s') && s.poller.todo[0].id in s.rows
    requires !s.rows[s.poller.todo[0].id].status.Terminal()
    requires forall r | r in s.readers :: ReaderOk(ViewOf(s, s.readers[r].batch), s.readers[r])
    ensures forall r | r in s'.readers :: ReaderOk(ViewOf(s', s'.readers[r].batch), s'.readers[r])
  {
    var b, u := s.poller.todo[0].id, s.poller.update;
    CommitIsLocal(s, s');
    forall r | r in s'.readers ensures ReaderOk(ViewOf(s', s'.readers[r].batch), s'.readers[r]) {
      assert ReaderOk(ViewOf(s, s.readers[r].batch), s.readers[r]);
      if s.readers[r].batch == b {
        PublishedStays(ViewOf(s, b), UpdateRow(s.rows[b], u), s.readers[r]);
      }
    }
  }

  lemma CommitKeepsInv(models: Models, s: System, s': System)
    requires Inv(models, s) && PollerStep(s, CommitUpdate) == Some(s')
    ensures Inv(models, s')
  {
    var snap, u := s.poller.todo[0], s.poller.update;
    var v := ViewOf(s, snap.id);
    assert ViewOk(models, s.now, v) && SnapOk(v, Todo(s.poller)[0]);
    CommitIsLocal(s, s');
    CommitViewOk(models, s.now, v, snap, u);
    TailOk(s, s');
    CommitKeepsReaders(s, s');
    forall x: BatchId ensures ViewOk(models, s'.now, ViewOf(s', x)) {
      assert ViewOk(models, s.now, ViewOf(s, x));
    }
  }
  // ---- Results handlers ----

  /** What one results handler does next, seen from its batch. */
  lemma LookUpOk(models: Models, s: System, a: Action, s': System)
    requires Inv(models, s) && a.LookUp? && ReaderStep(s, a) == Some(s')
    ensures ReaderOk(ViewOf(s, a.b), s'.readers[a.r]) && s'.readers[a.r].batch == a.b
  {
    assert ViewOk(models, s.now, ViewOf(s, a.b));
  }

  lemma ReadOnOk(s: System, a: Action, s': System, v: View)
    requires ReaderAction(a) && !a.LookUp? && ReaderStep(s, a) == Some(s')
    requires v == ViewOf(s, s.readers[a.r].batch) && ReaderOk(v, s.readers[a.r])
    ensures a.r in s'.readers ==>
              s'.readers[a.r].batch == s.readers[a.r].batch && ReaderOk(v, s'.readers[a.r])
  {
  }

  lemma ReaderViewOk(models: Models, s: System, a: Action, s': System)
    requires Inv(models, s) && ReaderAction(a) && ReaderStep(s, a) == Some(s')
    ensures a.r in s'.readers ==> ReaderOk(ViewOf(s, s'.readers[a.r].batch), s'.readers[a.r])
  {
    if a.LookUp? {
      LookUpOk(models, s, a, s');
    } else {
      ReadOnOk(s, a, s', ViewOf(s, s.readers[a.r].batch));
    }
  }

  lemma ReaderIsLocal(s: System, a: Action, s': System)
    requires ReaderAction(a) && ReaderStep(s, a) == Some(s')
    ensures s' == s.(readers := s'.readers)
    ensures forall r | r != a.r && r in s'.readers :: r in s.readers && s'.readers[r] == s.readers[r]
  {
  }

  lemma ReaderKeepsInv(models: Models, s: System, a: Action, s': System)
    requires Inv(models, s) && ReaderAction(a) && ReaderStep(s, a) == Some(s')
    ensures Inv(models, s')
  {
    ReaderViewOk(models, s, a, s');
    ReaderIsLocal(s, a, s');
    OnlyReaders(models, s, s', a.r);
  }

  lemma OnlyReaders(models: Models, s: System, s': System, changed: nat)
    requires Inv(models, s) && s' == s.(readers := s'.readers)
    requires forall r | r != changed && r in s'.readers :: r in s.readers && s'.readers[r] == s.readers[r]
    requires changed in s'.readers ==> ReaderOk(ViewOf(s, s'.readers[changed].batch), s'.readers[changed])
    ensures Inv(models, s')
  {
    forall x: BatchId ensures ViewOf(s', x) == ViewOf(s, x) && ViewOk(models, s'.now, ViewOf(s', x)) {
      assert ViewOk(models, s.now, ViewOf(s, x));
    }
    PollerKeptAsIs(models, s, s');
    forall r | r in s'.readers ensures ReaderOk(ViewOf(s', s'.readers[r].batch), s'.readers[r]) {
      if r != changed {
        assert ReaderOk(ViewOf(s, s.readers[r].batch), s.readers[r]);
      }
    }
  }

  lemma PollerKeptAsIs(models: Models, s: System, s': System)
    requires Inv(models, s) && s'.poller == s.poller && s'.now >= s.now
    requires forall x: BatchId :: ViewOf(s', x) == ViewOf(s, x)
    ensures PollerOk(s')
  {
    forall x: BatchId ensures Keeps(ViewOf(s, x), ViewOf(s', x)) {
      KeepsSelf(ViewOf(s, x));
    }
    PollerKept(models, s, s');
  }

  // ---- The clock and the restart ----

  lemma LaterOk(models: Models, now: int, v: View)
    requires ViewOk(models, now, v)
    ensures ViewOk(models, now + 1, v)
    ensures ViewOk(models, now, v.(handler := None))
  {
  }

  lemma TickKeepsInv(models: Models, s: System)
    requires Inv(models, s)
    ensures Inv(models, s.(now := s.now + 1))
  {
    var s' := s.(now := s.now + 1);
    forall x: BatchId ensures ViewOf(s', x) == ViewOf(s, x) && ViewOk(models, s'.now, ViewOf(s', x)) {
      LaterOk(models, s.now, ViewOf(s, x));
    }
    PollerKeptAsIs(models, s, s');
    forall r | r in s'.readers ensures ReaderOk(ViewOf(s', s'.readers[r].batch), s'.readers[r]) {
      assert ReaderOk(ViewOf(s, s.readers[r].batch), s.readers[r]);
    }
  }

  /** Stopping the API anywhere and starting it again is harmless. */
  lemma RestartKeepsInv(models: Models, s: System)
    requires Inv(models, s)
    ensures Inv(models, Restarted(s))
  {
    var s' := Restarted(s);
    forall x: BatchId ensures ViewOk(models, s'.now, ViewOf(s', x)) {
      assert ViewOf(s', x) == ViewOf(s, x).(handler := None);
      LaterOk(models, s.now, ViewOf(s, x));
    }
  }

  /** Every step keeps the invariant. */
  lemma StepKeepsInv(models: Models, s: System, a: Action, s': System)
    requires Inv(models, s) && Step(models, s, a) == Some(s')
    ensures Inv(models, s')
  {
    if HandlerAction(a) {
      HandlerKeepsInv(models, s, a, s');
    } else if a.CommitUpdate? {
      CommitKeepsInv(models, s, s');
    } else if PollerAction(a) {
      PollerKeepsInv(models, s, a, s');
    } else if ReaderAction(a) {
      ReaderKeepsInv(models, s, a, s');
    } else if a.Tick? {
      TickKeepsInv(models, s);
    } else if a.RayAccepts? {
      RayAcceptsKeepsInv(models, s, a.b, a.j, s');
    } else if a.RayMoves? {
      RayMovesKeepsInv(models, s, a.j, a.to, s');
    } else if a.Work? {
      WorkKeepsInv(models, s, a.j, a.w, s');
    } else {
      RestartKeepsInv(models, s);
    }
  }

  /** The invariant holds in every reachable state. */
  lemma {:induction false} ReachableOk(models: Models, actions: seq<Action>, s: System)
    requires Run(models, INITIAL, actions) == Some(s)
    ensures Inv(models, s)
  {
    if actions == [] {
      InitialOk(models);
    } else {
      var last := |actions| - 1;
      var before := Run(models, INITIAL, actions[..last]).value;
      ReachableOk(models, actions[..last], before);
      StepKeepsInv(models, before, actions[last], s);
    }
  }
}
