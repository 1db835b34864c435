/** Runs that exist: a whole batch from POST to a served result, a batch stuck on a torn marker,
    and, with a second poller, a terminal row that is changed again. */
module Reachability {
  import opened Wrappers
  import opened Jsonl
  import opened Predictor
  import opened Pipeline
  import opened Domain
  import opened Table
  import opened Api
  import opened Protocol
  import opened Preservation
  import opened Lifecycle
  import opened SweepRuns
  import opened FullRuns
  import Worker

  // ---- POST ----

  /** The state of a `create_batch` call that has written the first `k` lines. */
  function Written(s: System, b: BatchId, prompts: seq<string>, k: nat, text: string): System {
    s.(posted := s.posted[b := prompts], dirs := s.dirs[b := EMPTY_DIR.(input := Some(text))],
       handlers := s.handlers[b := Writing(k)])
  }

  lemma OneLine(s: System, b: BatchId, prompts: seq<string>, k: nat, text: string)
    requires k < |prompts|
    ensures HandlerStep(Written(s, b, prompts, k, text), WriteLine(b))
         == Some(Written(s, b, prompts, k + 1, text + (EncodeRow(NumberRows(prompts)[k]) + ['\n'])))
  {
    var line := EncodeRow(NumberRows(prompts)[k]) + ['\n'];
    LineWritten(s, b, prompts, k, text, line);
    calc {
      HandlerStep(Written(s, b, prompts, k, text), WriteLine(b));
      Some(LineAdded(Written(s, b, prompts, k, text), b, line, k + 1));
      Some(Written(s, b, prompts, k + 1, text + line));
    }
  }

  lemma LineWritten(s: System, b: BatchId, prompts: seq<string>, k: nat, text: string, line: string)
    ensures LineAdded(Written(s, b, prompts, k, text), b, line, k + 1) == Written(s, b, prompts, k + 1, text + line)
  {
    var before := Written(s, b, prompts, k, text);
    var after := EMPTY_DIR.(input := Some(text + line));
    assert before.dirs[b := after] == s.dirs[b := after];
    assert before.handlers[b := Writing(k + 1)] == s.handlers[b := Writing(k + 1)];
  }

  lemma PostStep(s: System, b: BatchId, prompts: seq<string>)
    requires b !in s.posted && prompts != []
    ensures HandlerStep(s, Post(b, prompts)) == Some(Written(s, b, prompts, 0, []))
    ensures [] + EncodeRows(NumberRows(prompts)[0..]) == EncodeFile(prompts)
  {
    assert NumberRows(prompts)[0..] == NumberRows(prompts);
    assert [] + EncodeFile(prompts) == EncodeFile(prompts);
  }

  lemma HandlerThen(models: Models, s: System, actions: seq<Action>, middle: System, a: Action, s': System)
    returns (longer: seq<Action>)
    requires Run(models, s, actions) == Some(middle) && HandlerAction(a) && HandlerStep(middle, a) == Some(s')
    ensures Run(models, s, longer) == Some(s')
  {
    IsHandlerStep(models, middle, a);
    RunThen(models, s, actions, middle, a);
    longer := actions + [a];
  }

  lemma NextLine(models: Models, s: System, b: BatchId, prompts: seq<string>, k: nat, before: seq<Action>, start: string)
    returns (actions: seq<Action>, text: string)
    requires k < |prompts| && Run(models, s, before) == Some(Written(s, b, prompts, k, start))
    requires start + EncodeRows(NumberRows(prompts)[k..]) == EncodeFile(prompts)
    ensures Run(models, s, actions) == Some(Written(s, b, prompts, k + 1, text))
    ensures text + EncodeRows(NumberRows(prompts)[k + 1..]) == EncodeFile(prompts)
  {
    text := start + (EncodeRow(NumberRows(prompts)[k]) + ['\n']);
    WriteLineOk(prompts, k, start);
    OneLine(s, b, prompts, k, start);
    actions := HandlerThen(models, s, before, Written(s, b, prompts, k, start), WriteLine(b),
                           Written(s, b, prompts, k + 1, text));
  }

  lemma {:induction false} WriteLines(models: Models, s: System, b: BatchId, prompts: seq<string>, k: nat)
    returns (actions: seq<Action>, text: string)
    requires b !in s.posted && prompts != [] && k <= |prompts|
    ensures Run(models, s, actions) == Some(Written(s, b, prompts, k, text))
    ensures text + EncodeRows(NumberRows(prompts)[k..]) == EncodeFile(prompts)
  {
    if k == 0 {
      PostStep(s, b, prompts);
      actions := HandlerThen(models, s, [], s, Post(b, prompts), Written(s, b, prompts, 0, []));
      text := [];
    } else {
      var before, start := WriteLines(models, s, b, prompts, k - 1);
      actions, text := NextLine(models, s, b, prompts, k - 1, before, start);
    }
  }

  function Closed(s: System, b: BatchId, prompts: seq<string>): System {
    s.(posted := s.posted[b := prompts], dirs := s.dirs[b := EMPTY_DIR.(input := Some(EncodeFile(prompts)))],
       handlers := s.handlers[b := InputReady])
  }

  /** The state after the inputs are written and the row is committed. */
  function Committed(s: System, b: BatchId, prompts: seq<string>, h: Handler): System {
    Closed(s, b, prompts).(rows := s.rows[b := NewRow(|prompts|, s.now)], handlers := s.handlers[b := h])
  }

  lemma CloseStep(s: System, b: BatchId, prompts: seq<string>)
    ensures HandlerStep(Written(s, b, prompts, |prompts|, EncodeFile(prompts)), CloseInput(b))
         == Some(Closed(s, b, prompts))
  {
    var before := Written(s, b, prompts, |prompts|, EncodeFile(prompts));
    assert before.handlers[b := InputReady] == s.handlers[b := InputReady];
  }

  lemma CommitStep(s: System, b: BatchId, prompts: seq<string>)
    requires b !in s.rows
    ensures HandlerStep(Closed(s, b, prompts), CommitRow(b)) == Some(Committed(s, b, prompts, RowCommitted))
  {
    assert Closed(s, b, prompts).handlers[b := RowCommitted] == s.handlers[b := RowCommitted];
  }

  lemma CommitRuns(models: Models, s: System, b: BatchId, prompts: seq<string>)
    returns (actions: seq<Action>)
    requires b !in s.posted && b !in s.rows && prompts != []
    ensures Run(models, s, actions) == Some(Committed(s, b, prompts, RowCommitted))
  {
    var text;
    actions, text := WriteLines(models, s, b, prompts, |prompts|);
    assert NumberRows(prompts)[|prompts|..] == [] && text + [] == text;
    CloseStep(s, b, prompts);
    CommitStep(s, b, prompts);
    actions := HandlerThen(models, s, actions, Written(s, b, prompts, |prompts|, text), CloseInput(b),
                           Closed(s, b, prompts));
    actions := HandlerThen(models, s, actions, Closed(s, b, prompts), CommitRow(b),
                           Committed(s, b, prompts, RowCommitted));
  }

  /** The state after the job id is committed: what an undisturbed POST leaves. */
  function Attached(s: System, b: BatchId, prompts: seq<string>, j: JobId): System {
    Closed(s, b, prompts).(
      rows := s.rows[b := NewRow(|prompts|, s.now).(rayJobId := Some(j))],
      handlers := s.handlers[b := JobAttached],
      inflight := s.inflight - {b},
      jobs := s.jobs[j := Job(b, Pending, Worker.NotStarted)],
      jobOf := s.jobOf[b := j])
  }

  function Called(s: System, b: BatchId, prompts: seq<string>): System {
    Committed(s, b, prompts, Submitting).(inflight := s.inflight + {b})
  }

  function Accepted(s: System, b: BatchId, prompts: seq<string>, j: JobId, h: Handler): System {
    Committed(s, b, prompts, h).(
      inflight := s.inflight - {b}, jobs := s.jobs[j := Job(b, Pending, Worker.NotStarted)], jobOf := s.jobOf[b := j])
  }

  lemma CallStep(s: System, b: BatchId, prompts: seq<string>)
    ensures HandlerStep(Committed(s, b, prompts, RowCommitted), CallSubmit(b)) == Some(Called(s, b, prompts))
  {
    var before := Committed(s, b, prompts, RowCommitted);
    assert before.handlers[b := Submitting] == s.handlers[b := Submitting];
  }

  lemma AcceptStep(models: Models, s: System, b: BatchId, prompts: seq<string>, j: JobId)
    requires j !in s.jobs && b !in s.inflight
    ensures Step(models, Called(s, b, prompts), RayAccepts(b, j)) == Some(Accepted(s, b, prompts, j, Submitting))
  {
    assert Called(s, b, prompts).inflight - {b} == s.inflight - {b};
  }

  lemma ReturnStep(s: System, b: BatchId, prompts: seq<string>, j: JobId)
    ensures HandlerStep(Accepted(s, b, prompts, j, Submitting), SubmitReturns(b, j))
         == Some(Accepted(s, b, prompts, j, GotJob(j)))
  {
    var before := Accepted(s, b, prompts, j, Submitting);
    assert before.handlers[b := GotJob(j)] == s.handlers[b := GotJob(j)];
  }

  lemma AttachStep(s: System, b: BatchId, prompts: seq<string>, j: JobId)
    ensures HandlerStep(Accepted(s, b, prompts, j, GotJob(j)), CommitJobId(b)) == Some(Attached(s, b, prompts, j))
  {
    var before := Accepted(s, b, prompts, j, GotJob(j));
    var row := NewRow(|prompts|, s.now).(rayJobId := Some(j));
    assert before.handlers[b := JobAttached] == s.handlers[b := JobAttached];
    assert before.rows[b := row] == s.rows[b := row];
  }

  lemma SubmitRuns(models: Models, s: System, b: BatchId, prompts: seq<string>, j: JobId)
    returns (actions: seq<Action>)
    requires j !in s.jobs && b !in s.inflight
    ensures Run(models, Committed(s, b, prompts, RowCommitted), actions) == Some(Attached(s, b, prompts, j))
  {
    var start := Committed(s, b, prompts, RowCommitted);
    CallStep(s, b, prompts);
    AcceptStep(models, s, b, prompts, j);
    ReturnStep(s, b, prompts, j);
    AttachStep(s, b, prompts, j);
    actions := HandlerThen(models, start, [], start, CallSubmit(b), Called(s, b, prompts));
    RunThen(models, start, actions, Called(s, b, prompts), RayAccepts(b, j));
    actions := actions + [RayAccepts(b, j)];
    actions := HandlerThen(models, start, actions, Accepted(s, b, prompts, j, Submitting), SubmitReturns(b, j),
                           Accepted(s, b, prompts, j, GotJob(j)));
    actions := HandlerThen(models, start, actions, Accepted(s, b, prompts, j, GotJob(j)), CommitJobId(b),
                           Attached(s, b, prompts, j));
  }

  /** In any state a POST under a fresh id can run undisturbed to an attached queued row, over the
      same table and directory as Api.CreateBatch leaves. */
  lemma PostRuns(models: Models, s: System, b: BatchId, prompts: seq<string>, j: JobId)
    returns (actions: seq<Action>)
    requires b !in s.posted && b !in s.rows && b !in s.inflight && j !in s.jobs && prompts != []
    ensures Run(models, s, actions) == Some(Attached(s, b, prompts, j))
  {
    var first := CommitRuns(models, s, b, prompts);
    var second := SubmitRuns(models, s, b, prompts, j);
    RunConcat(models, s, first, Committed(s, b, prompts, RowCommitted), second);
    actions := first + second;
  }

  // ---- The worker ----

  /** Whatever the worker machine can do from here, the system can do. */
  lemma {:induction false} WorkRuns(models: Models, s: System, j: JobId, work: seq<Worker.Action>, c: Worker.Config)
    returns (actions: seq<Action>)
    requires j in s.jobs && !s.jobs[j].status.Ended() && s.jobs[j].batch in s.dirs
    requires Worker.Exec(models(s.jobs[j].batch), Worker.Config(s.jobs[j].process, s.dirs[s.jobs[j].batch]), work) == Some(c)
    ensures Run(models, s, actions)
         == Some(s.(jobs := s.jobs[j := s.jobs[j].(process := c.process)], dirs := s.dirs[s.jobs[j].batch := c.dir]))
  {
    var b := s.jobs[j].batch;
    var start := Worker.Config(s.jobs[j].process, s.dirs[b]);
    if work == [] {
      actions := [];
      assert s.jobs[j := s.jobs[j]] == s.jobs && s.dirs[b := s.dirs[b]] == s.dirs;
    } else {
      var last := |work| - 1;
      var mid := Worker.Exec(models(b), start, work[..last]).value;
      var before := WorkRuns(models, s, j, work[..last], mid);
      var middle := Working(s, j, mid);
      WorkOne(models, s, j, mid, work[last], c);
      actions := WorkerThen(models, s, before, middle, j, work[last], Working(s, j, c));
    }
  }

  function Working(s: System, j: JobId, c: Worker.Config): System
    requires j in s.jobs
  {
    s.(jobs := s.jobs[j := s.jobs[j].(process := c.process)], dirs := s.dirs[s.jobs[j].batch := c.dir])
  }

  lemma WorkerThen(models: Models, s: System, actions: seq<Action>, middle: System, j: JobId, w: Worker.Action, s': System)
    returns (longer: seq<Action>)
    requires Run(models, s, actions) == Some(middle) && WorkStep(models, middle, j, w) == Some(s')
    ensures Run(models, s, longer) == Some(s')
  {
    assert RayStep(models, middle, Work(j, w)) == Some(s');
    RunThen(models, s, actions, middle, Work(j, w));
    longer := actions + [Work(j, w)];
  }

  lemma WorkOne(models: Models, s: System, j: JobId, mid: Worker.Config, w: Worker.Action, c: Worker.Config)
    requires j in s.jobs && !s.jobs[j].status.Ended() && Worker.Step(models(s.jobs[j].batch), mid, w) == Some(c)
    ensures WorkStep(models, Working(s, j, mid), j, w) == Some(Working(s, j, c))
  {
    var before, b := Working(s, j, mid), s.jobs[j].batch;
    var job := s.jobs[j].(process := c.process);
    assert before.jobs[j := job] == s.jobs[j := job];
    assert before.dirs[b := c.dir] == s.dirs[b := c.dir];
  }

  /** Whatever was submitted, a first run can go through to exit code 0, and then leaves its output
      published and counted. */
  lemma WorkerFinishes(model: Model, prompts: seq<string>, plan: Plan, name: string)
    returns (work: seq<Worker.Action>)
    requires ValidPlan(NumberRows(prompts), plan)
    ensures var output := Output(model, plan);
            Worker.Exec(model, Worker.Config(Worker.NotStarted, Worker.FreshDir(prompts)), work)
            == Some(Worker.Config(Worker.Exited(0), Finished(prompts, output)))
  {
    FileRoundTrip(prompts);
    work := FullRunExists(model, NumberRows(prompts), Worker.FreshDir(prompts), plan, name);
    Worker.OnlyStagedFile(name, Output(model, plan));
  }

  function Finished(prompts: seq<string>, output: seq<OutRow>): Dir {
    Dir(Some(EncodeFile(prompts)), None, {}, Some(output), Whole(PayloadFor(|prompts|, output)), Absent)
  }

  // ---- A whole batch ----

  /** The system after the job of `Attached` has run to its end and Ray reports it. */
  function Ended(s: System, j: JobId, c: Worker.Config, to: RayStatus): System
    requires j in s.jobs
  {
    s.(jobs := s.jobs[j := s.jobs[j].(process := c.process, status := to)], dirs := s.dirs[s.jobs[j].batch := c.dir])
  }

  lemma JobMoves(models: Models, s: System, j: JobId, c: Worker.Config, to: RayStatus)
    requires j in s.jobs && s.jobs[j].status.Pending?
    requires c.process.Ended() && to.Ended() && (to.Succeeded? ==> c.process == Worker.Exited(0))
    ensures Step(models, Working(s, j, c), RayMoves(j, to)) == Some(Ended(s, j, c, to))
  {
    var middle := Working(s, j, c);
    assert middle.jobs[j := Moved(middle.jobs[j], to)] == s.jobs[j := s.jobs[j].(process := c.process, status := to)];
    assert RayStep(models, middle, RayMoves(j, to)) == Some(Ended(s, j, c, to));
  }

  lemma JobEnds(models: Models, s: System, j: JobId, work: seq<Worker.Action>, c: Worker.Config, to: RayStatus)
    returns (actions: seq<Action>)
    requires j in s.jobs && s.jobs[j].status.Pending? && s.jobs[j].batch in s.dirs
    requires Worker.Exec(models(s.jobs[j].batch), Worker.Config(s.jobs[j].process, s.dirs[s.jobs[j].batch]), work) == Some(c)
    requires c.process.Ended() && to.Ended() && (to.Succeeded? ==> c.process == Worker.Exited(0))
    ensures Run(models, s, actions) == Some(Ended(s, j, c, to))
  {
    var run := WorkRuns(models, s, j, work, c);
    var middle := Working(s, j, c);
    RunThen(models, s, run, middle, RayMoves(j, to));
    JobMoves(models, s, j, c, to);
    actions := run + [RayMoves(j, to)];
  }

  lemma PostedThenEnds(models: Models, b: BatchId, j: JobId, prompts: seq<string>, work: seq<Worker.Action>,
                       c: Worker.Config, to: RayStatus) returns (actions: seq<Action>)
    requires prompts != [] && c.process.Ended() && to.Ended() && (to.Succeeded? ==> c.process == Worker.Exited(0))
    requires Worker.Exec(models(b), Worker.Config(Worker.NotStarted, Worker.FreshDir(prompts)), work) == Some(c)
    ensures Run(models, INITIAL, actions) == Some(Ended(Attached(INITIAL, b, prompts, j), j, c, to))
  {
    var post := PostRuns(models, INITIAL, b, prompts, j);
    var attached := Attached(INITIAL, b, prompts, j);
    assert attached.dirs[b] == Worker.FreshDir(prompts);
    var run := JobEnds(models, attached, j, work, c, to);
    RunConcat(models, INITIAL, post, attached, run);
    actions := post + run;
  }

  /** A state in which one batch's job succeeded, the poller sleeps and nothing else is active. */
  ghost predicate OnlyBatch(s: System, b: BatchId, j: JobId, prompts: seq<string>, output: seq<OutRow>) {
    && s.rows == map[b := NewRow(|prompts|, s.now).(rayJobId := Some(j))]
    && j in s.jobs && s.jobs[j].status == Succeeded
    && b in s.dirs && s.dirs[b] == Finished(prompts, output)
    && s.poller == Sleeping && s.readers == map[]
  }

  lemma BatchSucceeds(models: Models, b: BatchId, j: JobId, prompts: seq<string>)
    returns (actions: seq<Action>, s: System, output: seq<OutRow>)
    requires prompts != []
    ensures Run(models, INITIAL, actions) == Some(s) && OnlyBatch(s, b, j, prompts, output)
    ensures output == Expected(models(b), prompts)
  {
    var plan := PlanExists(NumberRows(prompts));
    output := Output(models(b), plan);
    InOrderIff(models(b), prompts, plan);
    var work := WorkerFinishes(models(b), prompts, plan, "part-0.json");
    var c := Worker.Config(Worker.Exited(0), Finished(prompts, output));
    actions := PostedThenEnds(models, b, j, prompts, work, c, Succeeded);
    s := Ended(Attached(INITIAL, b, prompts, j), j, c, Succeeded);
  }

  lemma OnlyBatchSwept(s: System, b: BatchId, j: JobId, prompts: seq<string>, output: seq<OutRow>)
    requires OnlyBatch(s, b, j, prompts, output)
    ensures IsListOf([b], s.rows)
    ensures b in Sweep(Standing(s), s.rows) && Sweep(Standing(s), s.rows)[b].status == Completed
  {
    var row := s.rows[b];
    assert Standing(s).ray[j] == Succeeded;
    assert Decision(Standing(s), b, row) == Some(Succeed(PayloadFor(|prompts|, output), s.now));
  }

  function Served(s: System, r: nat, b: BatchId, sent: seq<OutRow>): System {
    s.(readers := s.readers[r := Opened(b, sent)])
  }

  lemma ReaderThen(models: Models, s: System, actions: seq<Action>, middle: System, a: Action, s': System)
    returns (longer: seq<Action>)
    requires Run(models, s, actions) == Some(middle) && ReaderAction(a) && ReaderStep(middle, a) == Some(s')
    ensures Run(models, s, longer) == Some(s')
  {
    IsReaderStep(models, middle, a);
    RunThen(models, s, actions, middle, a);
    longer := actions + [a];
  }

  lemma OpenSteps(s: System, r: nat, b: BatchId)
    requires r !in s.readers && b in s.rows && s.rows[b].status == Completed
    requires b in s.dirs && s.dirs[b].results.Some?
    ensures ReaderStep(s, LookUp(r, b)) == Some(s.(readers := s.readers[r := Found(b)]))
    ensures ReaderStep(s.(readers := s.readers[r := Found(b)]), CheckFile(r)) == Some(Served(s, r, b, []))
  {
    assert s.readers[r := Found(b)][r := Opened(b, [])] == s.readers[r := Opened(b, [])];
  }

  lemma LineStep(s: System, r: nat, b: BatchId, k: nat)
    requires b in s.dirs && s.dirs[b].results.Some? && k < |s.dirs[b].results.value|
    ensures var file := s.dirs[b].results.value;
            ReaderStep(Served(s, r, b, file[..k]), SendLine(r)) == Some(Served(s, r, b, file[..k + 1]))
  {
    var file := s.dirs[b].results.value;
    assert file[..k] + [file[k]] == file[..k + 1];
    assert s.readers[r := Opened(b, file[..k])][r := Opened(b, file[..k + 1])] == s.readers[r := Opened(b, file[..k + 1])];
  }

  lemma OpeningRuns(models: Models, s: System, r: nat, b: BatchId) returns (actions: seq<Action>)
    requires r !in s.readers && b in s.rows && s.rows[b].status == Completed
    requires b in s.dirs && s.dirs[b].results.Some?
    ensures Run(models, s, actions) == Some(Served(s, r, b, []))
  {
    OpenSteps(s, r, b);
    actions := ReaderThen(models, s, [], s, LookUp(r, b), s.(readers := s.readers[r := Found(b)]));
    actions := ReaderThen(models, s, actions, s.(readers := s.readers[r := Found(b)]), CheckFile(r), Served(s, r, b, []));
  }

  /** The state in which the reader has sent the first `k` lines. */
  function ServedTo(s: System, r: nat, b: BatchId, k: nat): System
    requires b in s.dirs && s.dirs[b].results.Some? && k <= |s.dirs[b].results.value|
  {
    Served(s, r, b, s.dirs[b].results.value[..k])
  }

  lemma OneMoreServed(models: Models, s: System, r: nat, b: BatchId, k: nat, before: seq<Action>)
    returns (actions: seq<Action>)
    requires b in s.dirs && s.dirs[b].results.Some? && k < |s.dirs[b].results.value|
    requires Run(models, s, before) == Some(ServedTo(s, r, b, k))
    ensures Run(models, s, actions) == Some(ServedTo(s, r, b, k + 1))
  {
    var file := s.dirs[b].results.value;
    LineStep(s, r, b, k);
    actions := ReaderThen(models, s, before, Served(s, r, b, file[..k]), SendLine(r), Served(s, r, b, file[..k + 1]));
  }

  lemma {:induction false} LinesRun(models: Models, s: System, r: nat, b: BatchId, k: nat, none: seq<Action>)
    returns (actions: seq<Action>)
    requires b in s.dirs && s.dirs[b].results.Some? && k <= |s.dirs[b].results.value|
    requires Run(models, s, none) == Some(ServedTo(s, r, b, 0))
    ensures Run(models, s, actions) == Some(ServedTo(s, r, b, k))
  {
    if k == 0 {
      actions := none;
    } else {
      actions := LinesRun(models, s, r, b, k - 1, none);
      actions := OneMoreServed(models, s, r, b, k - 1, actions);
    }
  }

  lemma StreamRuns(models: Models, s: System, r: nat, b: BatchId) returns (actions: seq<Action>, s': System)
    requires r !in s.readers && b in s.rows && s.rows[b].status == Completed
    requires b in s.dirs && s.dirs[b].results.Some?
    ensures Run(models, s, actions) == Some(s') && r in s'.readers
    ensures s'.readers[r] == Done(b, Streamed(s.dirs[b].results.value))
  {
    var file := s.dirs[b].results.value;
    actions := OpeningRuns(models, s, r, b);
    assert file[..0] == [] && file[..|file|] == file;
    actions := LinesRun(models, s, r, b, |file|, actions);
    var ready := Served(s, r, b, file);
    s' := ready.(readers := ready.readers[r := Done(b, Streamed(file))]);
    actions := ReaderThen(models, s, actions, ready, CloseFile(r), s');
  }

  /** The guarantees about served results are not empty: for any prompts there is a run that starts
      with nothing and ends with the plain loop's rows served in submission order. */
  lemma ResultsCanBeServed(models: Models, b: BatchId, j: JobId, prompts: seq<string>)
    returns (actions: seq<Action>, s: System)
    requires prompts != []
    ensures Run(models, INITIAL, actions) == Some(s) && 0 in s.readers
    ensures s.readers[0] == Done(b, Streamed(Expected(models(b), prompts)))
  {
    var first, ended, output := BatchSucceeds(models, b, j, prompts);
    ReachableOk(models, first, ended);
    OnlyBatchSwept(ended, b, j, prompts, output);
    var sweep, swept := SweepExists(models, ended, [b]);
    var second := [StartSweep([b])] + sweep;
    RunConcat(models, INITIAL, first, ended, second);
    var third;
    third, s := StreamRuns(models, swept, 0, b);
    RunConcat(models, INITIAL, first + second, swept, third);
    actions := first + second + third;
  }

  // ---- A torn failure marker ----

  /** From any state inside `run_batch` a worker may raise, open `_FAILED` and be killed. */
  lemma TornWork(model: Model, start: Worker.Config, error: string) returns (work: seq<Worker.Action>)
    requires start.process.InRunBatch()
    ensures Worker.Exec(model, start, work)
         == Some(Worker.Config(Worker.Killed, start.dir.(failed := Torn)))
  {
    work := WorkThen(model, start, [], start, Worker.Raise(error));
    work := WorkThen(model, start, work, start.(process := Worker.Raising(error)), Worker.OpenFailure);
    work := WorkThen(model, start, work,
                     Worker.Config(Worker.FailureOpened(error), start.dir.(failed := Torn)), Worker.Kill);
  }

  /** The state that is never reported does occur. */
  lemma TornFailureHappens(models: Models, b: BatchId, j: JobId, prompts: seq<string>)
    returns (actions: seq<Action>, s: System)
    requires prompts != []
    ensures Run(models, INITIAL, actions) == Some(s) && TornFailure(s, b)
  {
    var start := Worker.Config(Worker.NotStarted, Worker.FreshDir(prompts));
    var work := TornWork(models(b), start, "out of memory");
    var torn := Worker.Config(Worker.Killed, start.dir.(failed := Torn));
    actions := PostedThenEnds(models, b, j, prompts, work, torn, RayFailed);
    s := Ended(Attached(INITIAL, b, prompts, j), j, torn, RayFailed);
  }

  // ---- Two pollers ----

  /** Two API pods for a while, as a rolling update may bring about: the same system, and a second
      poller that the scheduler may switch to. */
  datatype Duo = Duo(system: System, other: Poller)

  datatype DuoAction = Of(a: Action) | Switch

  ghost function DuoStep(models: Models, d: Duo, a: DuoAction): Option<Duo> {
    match a
    case Of(action) =>
      var next := Step(models, d.system, action);
      if next.None? then None else Some(d.(system := next.value))
    case Switch => Some(Duo(d.system.(poller := d.other), d.system.poller))
  }

  ghost function DuoRun(models: Models, d: Duo, actions: seq<DuoAction>): Option<Duo> {
    if actions == [] then Some(d)
    else
      var before := DuoRun(models, d, actions[..|actions| - 1]);
      if before.None? then None else DuoStep(models, before.value, actions[|actions| - 1])
  }

  lemma DuoThen(models: Models, d: Duo, actions: seq<DuoAction>, middle: Duo, a: DuoAction)
    returns (longer: seq<DuoAction>)
    requires DuoRun(models, d, actions) == Some(middle)
    ensures DuoRun(models, d, longer) == DuoStep(models, middle, a)
    ensures longer == actions + [a]
  {
    longer := actions + [a];
    assert longer[..|actions|] == actions;
  }

  lemma {:induction false} DuoOf(models: Models, s: System, actions: seq<Action>, s': System, other: Poller)
    returns (both: seq<DuoAction>)
    requires Run(models, s, actions) == Some(s')
    ensures DuoRun(models, Duo(s, other), both) == Some(Duo(s', other))
  {
    if actions == [] {
      both := [];
    } else {
      var last := |actions| - 1;
      var middle := Run(models, s, actions[..last]).value;
      both := DuoOf(models, s, actions[..last], middle, other);
      both := DuoThen(models, Duo(s, other), both, Duo(middle, other), Of(actions[last]));
    }
  }

  lemma DuoConcat(models: Models, d: Duo, first: seq<DuoAction>, middle: System, other: Poller,
                  actions: seq<Action>, s': System) returns (both: seq<DuoAction>)
    requires DuoRun(models, d, first) == Some(Duo(middle, other)) && Run(models, middle, actions) == Some(s')
    ensures DuoRun(models, d, both) == Some(Duo(s', other))
    decreases |actions|
  {
    if actions == [] {
      both := first;
    } else {
      var last := |actions| - 1;
      var before := Run(models, middle, actions[..last]).value;
      both := DuoConcat(models, d, first, middle, other, actions[..last], before);
      both := DuoThen(models, d, both, Duo(before, other), Of(actions[last]));
    }
  }

  lemma PollerThen(models: Models, s: System, actions: seq<Action>, middle: System, a: Action, s': System)
    returns (longer: seq<Action>)
    requires Run(models, s, actions) == Some(middle) && PollerAction(a) && PollerStep(middle, a) == Some(s')
    ensures Run(models, s, longer) == Some(s')
  {
    IsPollerStep(models, middle, a);
    RunThen(models, s, actions, middle, a);
    longer := actions + [a];
  }

  lemma SweepOfOne(s: System, b: BatchId)
    requires s.poller == Sleeping && s.rows.Keys == {b} && !s.rows[b].status.Terminal()
    ensures PollerStep(s, StartSweep([b])) == Some(s.(poller := Sweeping([SnapOf(s.rows, b)])))
  {
    assert PollerStep(s, StartSweep([b])).value.poller.todo == [SnapOf(s.rows, b)];
  }

  /** A poller alone with one active row runs to the commit of its decision. */
  lemma DecisionRuns(models: Models, s: System, b: BatchId, j: JobId, u: Update) returns (actions: seq<Action>)
    requires s.poller == Sleeping && s.rows.Keys == {b} && !s.rows[b].status.Terminal()
    requires s.rows[b].rayJobId == Some(j) && j in s.jobs
    requires Decide(MapStatus(s.jobs[j].status), Get(s.dirs, b), s.rows[b].inputCount, s.now) == Ok(u)
    ensures Run(models, s, actions) == Some(s.(poller := Deciding([SnapOf(s.rows, b)], u)))
  {
    var todo := [SnapOf(s.rows, b)];
    var sweeping := s.(poller := Sweeping(todo));
    var heard := s.(poller := Heard(todo, MapStatus(s.jobs[j].status)));
    SweepOfOne(s, b);
    var start := PollerThen(models, s, [], s, StartSweep([b]), sweeping);
    var asked := PollerThen(models, s, start, sweeping, AskRay, heard);
    actions := PollerThen(models, s, asked, heard, ReadMarkers, s.(poller := Deciding(todo, u)));
  }

  /** The poller that is switched in asks about the one active row. */
  lemma AskThen(models: Models, d: Duo, actions: seq<DuoAction>, s: System, other: Poller, b: BatchId, j: JobId, u: Update)
    returns (longer: seq<DuoAction>)
    requires DuoRun(models, d, actions) == Some(Duo(s, other))
    requires s.poller == Sleeping && s.rows.Keys == {b} && !s.rows[b].status.Terminal()
    requires s.rows[b].rayJobId == Some(j) && j in s.jobs
    requires Decide(MapStatus(s.jobs[j].status), Get(s.dirs, b), s.rows[b].inputCount, s.now) == Ok(u)
    ensures DuoRun(models, d, longer) == Some(Duo(s.(poller := Deciding([SnapOf(s.rows, b)], u)), other))
  {
    var asking := DecisionRuns(models, s, b, j, u);
    longer := DuoConcat(models, d, actions, s, other, asking, s.(poller := Deciding([SnapOf(s.rows, b)], u)));
  }

  /** The first poller is paused, and the job fails before its process has started. */
  lemma SwitchAndFail(models: Models, d: Duo, actions: seq<DuoAction>, s: System, j: JobId, b: BatchId, late: Poller)
    returns (longer: seq<DuoAction>)
    requires s.poller == Sleeping && j in s.jobs && s.jobs[j] == Job(b, Pending, Worker.NotStarted)
    requires DuoRun(models, d, actions) == Some(Duo(s.(poller := late), Sleeping))
    ensures DuoRun(models, d, longer) == Some(Duo(s.(jobs := s.jobs[j := Job(b, RayFailed, Worker.Killed)]), late))
  {
    longer := DuoThen(models, d, actions, Duo(s.(poller := late), Sleeping), Switch);
    assert s.(poller := late).(poller := Sleeping) == s;
    longer := DuoThen(models, d, longer, Duo(s, late), Of(RayMoves(j, RayFailed)));
  }

  /** One poller asks Ray about a fresh row while its job is pending, the other after it failed. */
  lemma BothAsk(models: Models, b: BatchId, j: JobId, s: System, posted: seq<DuoAction>)
    returns (asked: seq<DuoAction>, ended: System)
    requires s.poller == Sleeping && s.rows.Keys == {b} && s.rows[b].status == Queued && s.rows[b].rayJobId == Some(j)
    requires j in s.jobs && s.jobs[j] == Job(b, Pending, Worker.NotStarted)
    requires Get(s.dirs, b).Some? && Pristine(s.dirs[b])
    requires DuoRun(models, Duo(INITIAL, Sleeping), posted) == Some(Duo(s, Sleeping))
    ensures ended.rows == s.rows
    ensures DuoRun(models, Duo(INITIAL, Sleeping), asked)
         == Some(Duo(ended.(poller := Deciding([SnapOf(s.rows, b)], Finish(Failed, Some(NO_MARKER), s.now))),
                     Deciding([SnapOf(s.rows, b)], SetStatus(Queued))))
  {
    var start, late := Duo(INITIAL, Sleeping), Deciding([SnapOf(s.rows, b)], SetStatus(Queued));
    asked := AskThen(models, start, posted, s, Sleeping, b, j, SetStatus(Queued));
    asked := SwitchAndFail(models, start, asked, s, j, b, late);
    ended := s.(jobs := s.jobs[j := Job(b, RayFailed, Worker.Killed)]);
    asked := AskThen(models, start, asked, ended, late, b, j, Finish(Failed, Some(NO_MARKER), s.now));
  }

  /** Both pollers hold a decision for the same row; the failure is committed first. */
  lemma LateCommit(models: Models, asked: seq<DuoAction>, s: System, b: BatchId, failure: Update)
    returns (first: seq<DuoAction>, second: seq<DuoAction>, failed: Duo, again: Duo)
    requires b in s.rows && failure.Finish? && failure.final == Failed
    requires var snap := SnapOf(s.rows, b);
             DuoRun(models, Duo(INITIAL, Sleeping), asked)
             == Some(Duo(s.(poller := Deciding([snap], failure)), Deciding([snap], SetStatus(Queued))))
    ensures DuoRun(models, Duo(INITIAL, Sleeping), first) == Some(failed)
    ensures DuoRun(models, failed, second) == Some(again)
    ensures b in failed.system.rows && failed.system.rows[b].status == Failed
    ensures b in again.system.rows && again.system.rows[b].status == Queued
  {
    var snap := SnapOf(s.rows, b);
    var late := Deciding([snap], SetStatus(Queued));
    first := DuoThen(models, Duo(INITIAL, Sleeping), asked, Duo(s.(poller := Deciding([snap], failure)), late),
                     Of(CommitUpdate));
    failed := DuoRun(models, Duo(INITIAL, Sleeping), first).value;
    assert failed.system.rows[b].status == Failed && failed.other == late;
    var switched := Duo(failed.system.(poller := late), failed.system.poller);
    second := DuoThen(models, failed, [], failed, Switch);
    second := DuoThen(models, failed, second, switched, Of(CommitUpdate));
    again := DuoRun(models, failed, second).value;
  }

  /** One poller is needed: with two, a poller that asked Ray before the job failed may commit after
      the other one recorded the failure, and a failed row is queued again. */
  lemma TwoPollersBreakStickiness(models: Models, b: BatchId, j: JobId, prompts: seq<string>)
    returns (first: seq<DuoAction>, second: seq<DuoAction>, failed: Duo, again: Duo)
    requires prompts != []
    ensures DuoRun(models, Duo(INITIAL, Sleeping), first) == Some(failed)
    ensures DuoRun(models, failed, second) == Some(again)
    ensures b in failed.system.rows && failed.system.rows[b].status == Failed
    ensures b in again.system.rows && again.system.rows[b].status == Queued
  {
    var posted := PostRuns(models, INITIAL, b, prompts, j);
    var s := Attached(INITIAL, b, prompts, j);
    first := DuoOf(models, INITIAL, posted, s, Sleeping);
    var ended;
    first, ended := BothAsk(models, b, j, s, first);
    first, second, failed, again := LateCommit(models, first, ended, b, Finish(Failed, Some(NO_MARKER), s.now));
  }
}
