/** The whole system as a step machine over unboundedly many batches: POST handlers, the single
    poller, Ray's jobs, their worker processes and results handlers, interleaved between any two
    of their atomic steps. A database session is one step. An API stop may come between any two. */
module Protocol {
  import opened Wrappers
  import opened Jsonl
  import opened Predictor
  import opened Domain
  import opened Table
  import opened Api
  import Worker

  /** Where a `create_batch` call is; named after what it did last. */
  datatype Handler =
    | Writing(next: nat)
    | InputReady
    | RowCommitted
    | Submitting
    | GotJob(job: JobId)
    | SubmitRaised(typeName: string)
    | FailureCounted(typeName: string)
    | JobAttached
    | SubmitCounted

  /** A Ray job: the batch its entrypoint names, Ray's status for it, its process. */
  datatype Job = Job(batch: BatchId, status: RayStatus, process: Worker.Process)

  /** What the sweep keeps of an active row. */
  datatype Snap = Snap(id: BatchId, job: Option<JobId>, inputCount: nat)

  /** The poller between sweeps, or at the first row of `todo`: about to ask Ray, with Ray's
      answer, or with the update it is about to commit. */
  datatype Poller =
    | Sleeping
    | Sweeping(todo: seq<Snap>)
    | Heard(todo: seq<Snap>, answer: Status)
    | Deciding(todo: seq<Snap>, update: Update)

  /** Where a results handler is; `Done` keeps the response it gave. */
  datatype Reader =
    | Found(batch: BatchId)
    | Opened(batch: BatchId, sent: seq<OutRow>)
    | Done(batch: BatchId, response: Response)

  /** The three batch counters of the API process. */
  datatype Metrics = Metrics(submitted: nat, terminal: nat, submitFailures: nat)

  /** Bookkeeping for the counters: increments whose commit failed, handlers that were lost between
      a commit and its increment or the reverse, and what restarts forgot. */
  datatype Ledger = Ledger(
    terminalUncommitted: nat,
    attachedUncounted: nat,
    countedUnmarked: nat,
    forgotten: Metrics)

  datatype System = System(
    now: int,
    posted: map<BatchId, seq<string>>,
    dirs: map<BatchId, Dir>,
    rows: Rows,
    handlers: map<BatchId, Handler>,
    inflight: set<BatchId>,
    jobs: map<JobId, Job>,
    jobOf: map<BatchId, JobId>,
    poller: Poller,
    readers: map<nat, Reader>,
    metrics: Metrics,
    ledger: Ledger)

  /** What each batch's model and token limit, named by its POST, make of a prompt. */
  type Models = BatchId -> Model

  const ZERO := Metrics(0, 0, 0)

  /** Nothing submitted yet. `posted` keeps the prompts of each POST, which its handler works from, beyond
      the handler's end; `jobOf` records which job Ray made for a batch, and no party reads it. */
  const INITIAL :=
    System(0, map[], map[], map[], map[], {}, map[], map[], Sleeping, map[], ZERO, Ledger(0, 0, 0, ZERO))

  datatype Action =
    | Tick
    // create_batch
    | Post(b: BatchId, prompts: seq<string>)
    | WriteLine(b: BatchId)
    | CloseInput(b: BatchId)
    | CommitRow(b: BatchId)
    | CallSubmit(b: BatchId)
    | SubmitReturns(b: BatchId, j: JobId)
    | SubmitRaises(b: BatchId, typeName: string)
    | CountFailure(b: BatchId)
    | CommitFailed(b: BatchId)
    | CommitJobId(b: BatchId)
    | CountSubmitted(b: BatchId)
    | Respond(b: BatchId)
    | DropHandler(b: BatchId)
    // Ray and the worker
    | RayAccepts(b: BatchId, j: JobId)
    | RayMoves(j: JobId, to: RayStatus)
    | Work(j: JobId, w: Worker.Action)
    // the poller
    | StartSweep(order: seq<BatchId>)
    | SkipUnattached
    | AskRay
    | ReadMarkers
    | CommitUpdate
    | LoseUpdate
    | GiveUp
    | EndSweep
    // results handlers
    | LookUp(r: nat, b: BatchId)
    | CheckFile(r: nat)
    | SendLine(r: nat)
    | CloseFile(r: nat)
    | DropReader(r: nat)
    // the API process
    | Restart

  predicate HandlerAction(a: Action) {
    a.Post? || a.WriteLine? || a.CloseInput? || a.CommitRow? || a.CallSubmit? || a.SubmitReturns?
    || a.SubmitRaises? || a.CountFailure? || a.CommitFailed? || a.CommitJobId? || a.CountSubmitted?
    || a.Respond? || a.DropHandler?
  }

  predicate PollerAction(a: Action) {
    a.StartSweep? || a.SkipUnattached? || a.AskRay? || a.ReadMarkers? || a.CommitUpdate?
    || a.LoseUpdate? || a.GiveUp? || a.EndSweep?
  }

  predicate ReaderAction(a: Action) {
    a.LookUp? || a.CheckFile? || a.SendLine? || a.CloseFile? || a.DropReader?
  }

  /** One step of the system; None where the action is not enabled. */
  ghost function Step(models: Models, s: System, a: Action): Option<System> {
    if HandlerAction(a) then HandlerStep(s, a)
    else if PollerAction(a) then PollerStep(s, a)
    else if ReaderAction(a) then ReaderStep(s, a)
    else RayStep(models, s, a)
  }

  /** Time, Ray, the workers and restarts. */
  ghost function RayStep(models: Models, s: System, a: Action): Option<System>
    requires !HandlerAction(a) && !PollerAction(a) && !ReaderAction(a)
  {
    match a
    case Tick => Some(s.(now := s.now + 1))
    case RayAccepts(b, j) =>
      if b !in s.inflight || j in s.jobs then None
      else Some(s.(inflight := s.inflight - {b}, jobOf := s.jobOf[b := j],
                   jobs := s.jobs[j := Job(b, Pending, Worker.NotStarted)]))
    case RayMoves(j, to) =>
      if j !in s.jobs || !MayMove(s.jobs[j], to) then None
      else Some(s.(jobs := s.jobs[j := Moved(s.jobs[j], to)]))
    case Work(j, w) => WorkStep(models, s, j, w)
    case Restart => Some(Restarted(s))
  }

  // ---- create_batch ----

  predicate InputAction(a: Action) {
    a.Post? || a.WriteLine? || a.CloseInput?
  }

  predicate SubmitAction(a: Action) {
    a.CommitRow? || a.CallSubmit? || a.SubmitReturns? || a.SubmitRaises?
  }

  function HandlerStep(s: System, a: Action): Option<System>
    requires HandlerAction(a)
  {
    if InputAction(a) then InputStep(s, a)
    else if SubmitAction(a) then SubmitStep(s, a)
    else RecordStep(s, a)
  }

  /** Writing input.jsonl. */
  function InputStep(s: System, a: Action): Option<System>
    requires InputAction(a)
  {
    if a.Post? then
      if a.b in s.posted || a.prompts == [] then None
      else Some(s.(posted := s.posted[a.b := a.prompts], dirs := s.dirs[a.b := EMPTY_DIR.(input := Some([]))],
                   handlers := s.handlers[a.b := Writing(0)]))
    else if a.b !in s.handlers || a.b !in s.posted then None
    else
      var h, b, prompts := s.handlers[a.b], a.b, s.posted[a.b];
      match a
      case WriteLine(_) =>
        if !h.Writing? || h.next >= |prompts| || b !in s.dirs || s.dirs[b].input.None? then None
        else Some(LineAdded(s, b, EncodeRow(NumberRows(prompts)[h.next]) + ['\n'], h.next + 1))
      case CloseInput(_) =>
        if !h.Writing? || h.next != |prompts| then None else Some(At(s, b, InputReady))
  }

  function LineAdded(s: System, b: BatchId, line: string, next: nat): System
    requires b in s.dirs && s.dirs[b].input.Some?
  {
    At(s, b, Writing(next)).(dirs := s.dirs[b := s.dirs[b].(input := Some(s.dirs[b].input.value + line))])
  }

  /** Inserting the row and submitting the job. */
  function SubmitStep(s: System, a: Action): Option<System>
    requires SubmitAction(a)
  {
    if a.b !in s.handlers || a.b !in s.posted then None
    else
      var h, b := s.handlers[a.b], a.b;
      match a
      case CommitRow(_) =>
        if !h.InputReady? || b in s.rows then None
        else Some(At(s, b, RowCommitted).(rows := s.rows[b := NewRow(|s.posted[b]|, s.now)]))
      case CallSubmit(_) =>
        if !h.RowCommitted? then None
        else Some(At(s, b, Submitting).(inflight := s.inflight + {b}))
      case SubmitReturns(_, j) =>
        if !h.Submitting? || j !in s.jobs || s.jobs[j].batch != b then None else Some(At(s, b, GotJob(j)))
      case SubmitRaises(_, typeName) =>
        if !h.Submitting? then None else Some(At(s, b, SubmitRaised(typeName)))
  }

  /** Recording how the submission went, and leaving. */
  function RecordStep(s: System, a: Action): Option<System>
    requires HandlerAction(a) && !InputAction(a) && !SubmitAction(a)
  {
    if a.b !in s.handlers || a.b !in s.posted then None
    else
      var h, b := s.handlers[a.b], a.b;
      match a
      case CountFailure(_) =>
        if !h.SubmitRaised? then None
        else Some(At(s, b, FailureCounted(h.typeName))
                  .(metrics := s.metrics.(submitFailures := s.metrics.submitFailures + 1)))
      case CommitFailed(_) =>
        if !h.FailureCounted? then None
        else Some(Gone(s, b).(rows := Table.MarkFailed(s.rows, b, SubmissionError(h.typeName), s.now)))
      case CommitJobId(_) =>
        if !h.GotJob? then None
        else Some(At(s, b, JobAttached).(rows := Table.AttachRayJobId(s.rows, b, h.job)))
      case CountSubmitted(_) =>
        if !h.JobAttached? then None
        else Some(At(s, b, SubmitCounted).(metrics := s.metrics.(submitted := s.metrics.submitted + 1)))
      case Respond(_) =>
        if !h.SubmitCounted? then None else Some(Gone(s, b))
      case DropHandler(_) =>
        Some(Gone(s, b).(ledger := s.ledger.(
                           attachedUncounted := s.ledger.attachedUncounted + (if h.JobAttached? then 1 else 0),
                           countedUnmarked := s.ledger.countedUnmarked + (if h.FailureCounted? then 1 else 0))))
  }

  function At(s: System, b: BatchId, h: Handler): System {
    s.(handlers := s.handlers[b := h])
  }

  function Gone(s: System, b: BatchId): System {
    s.(handlers := s.handlers - {b})
  }

  // ---- Ray and the worker ----

  /** Ray's status only moves forward; it ends only after the process did (or never starts it), and
      succeeds only after an exit code of 0. */
  predicate MayMove(job: Job, to: RayStatus) {
    && !job.status.Ended()
    && (to.Ended() || (job.status.Pending? && to.Running?))
    && (to.Ended() ==> job.process.Ended() || job.process.NotStarted?)
    && (to.Succeeded? ==> job.process == Worker.Exited(0))
  }

  function Moved(job: Job, to: RayStatus): Job {
    job.(status := to, process := if to.Ended() && job.process.NotStarted? then Worker.Killed else job.process)
  }

  ghost function WorkStep(models: Models, s: System, j: JobId, w: Worker.Action): Option<System> {
    if j !in s.jobs || s.jobs[j].status.Ended() || s.jobs[j].batch !in s.dirs then None
    else
      var b := s.jobs[j].batch;
      var next := Worker.Step(models(b), Worker.Config(s.jobs[j].process, s.dirs[b]), w);
      if next.None? then None
      else Some(s.(jobs := s.jobs[j := s.jobs[j].(process := next.value.process)],
                   dirs := s.dirs[b := next.value.dir]))
  }

  // ---- The poller ----

  function SnapOf(rows: Rows, b: BatchId): Snap
    requires b in rows
  {
    Snap(b, rows[b].rayJobId, rows[b].inputCount)
  }

  predicate PollAction(a: Action) {
    a.AskRay? || a.ReadMarkers? || a.CommitUpdate? || a.LoseUpdate?
  }

  ghost function PollerStep(s: System, a: Action): Option<System>
    requires PollerAction(a)
  {
    if PollAction(a) then PollStep(s, a) else SweepStep(s, a)
  }

  /** Going through the list of active rows. */
  ghost function SweepStep(s: System, a: Action): Option<System>
    requires PollerAction(a) && !PollAction(a)
  {
    var p := s.poller;
    match a
    case StartSweep(order) =>
      if !p.Sleeping? || !IsListOf(order, s.rows) then None
      else Some(s.(poller := Sweeping(seq(|order|, i requires 0 <= i < |order| && order[i] in s.rows
                                                   => SnapOf(s.rows, order[i])))))
    case EndSweep =>
      if !p.Sweeping? || p.todo != [] then None else Some(s.(poller := Sleeping))
    case SkipUnattached =>
      if !p.Sweeping? || p.todo == [] || p.todo[0].job.Some? then None
      else Some(s.(poller := Sweeping(p.todo[1..])))
    case GiveUp =>
      if p.Sleeping? || p.todo == [] then None else Some(s.(poller := Sweeping(p.todo[1..])))
  }

  /** Polling the row at the head of the list. */
  function PollStep(s: System, a: Action): Option<System>
    requires PollAction(a)
  {
    var p := s.poller;
    match a
    case AskRay =>
      if !p.Sweeping? || p.todo == [] || p.todo[0].job.None? || p.todo[0].job.value !in s.jobs then None
      else Some(s.(poller := Heard(p.todo, MapStatus(s.jobs[p.todo[0].job.value].status))))
    case ReadMarkers =>
      if !p.Heard? || p.todo == [] then None
      else
        var decision := Decide(p.answer, Get(s.dirs, p.todo[0].id), p.todo[0].inputCount, s.now);
        Some(s.(poller := if decision.Ok? then Deciding(p.todo, decision.value) else Sweeping(p.todo[1..])))
    case CommitUpdate =>
      if !p.Deciding? || p.todo == [] then None
      else Some(Incremented(s).(rows := ApplyUpdate(s.rows, p.todo[0].id, p.update),
                                poller := Sweeping(p.todo[1..])))
    case LoseUpdate =>
      if !p.Deciding? || p.todo == [] then None
      else
        var after := Incremented(s);
        Some(after.(poller := Sweeping(p.todo[1..]),
                    ledger := s.ledger.(terminalUncommitted :=
                                          s.ledger.terminalUncommitted + after.metrics.terminal - s.metrics.terminal)))
  }

  /** `batch_terminal_total` goes up inside the session of a terminal update of an existing row. */
  function Incremented(s: System): (after: System)
    requires s.poller.Deciding? && s.poller.todo != []
    ensures after.metrics.terminal >= s.metrics.terminal
  {
    if s.poller.todo[0].id in s.rows && s.poller.update.Target().Terminal()
    then s.(metrics := s.metrics.(terminal := s.metrics.terminal + 1))
    else s
  }

  // ---- Results handlers ----

  function ReaderStep(s: System, a: Action): Option<System>
    requires ReaderAction(a)
  {
    if a.LookUp? then
      if a.r in s.readers then None
      else
        Some(s.(readers := s.readers[a.r :=
                  if a.b !in s.rows then Done(a.b, NotFound)
                  else if s.rows[a.b].status != Completed then Done(a.b, Conflict(s.rows[a.b].status))
                  else Found(a.b)]))
    else if a.r !in s.readers then None
    else
      var reader := s.readers[a.r];
      var file := if reader.batch in s.dirs then s.dirs[reader.batch].results else None;
      match a
      case CheckFile(r) =>
        if !reader.Found? then None
        else Some(s.(readers := s.readers[r :=
                       if file.None? then Done(reader.batch, ServerError) else Opened(reader.batch, [])]))
      case SendLine(r) =>
        if !reader.Opened? || file.None? || |reader.sent| >= |file.value| then None
        else Some(s.(readers := s.readers[r := Opened(reader.batch, reader.sent + [file.value[|reader.sent|]])]))
      case CloseFile(r) =>
        if !reader.Opened? || file.None? || |reader.sent| < |file.value| then None
        else Some(s.(readers := s.readers[r := Done(reader.batch, Streamed(reader.sent))]))
      case DropReader(r) => Some(s.(readers := s.readers - {r}))
  }

  // ---- Restart ----

  /** How many of the values satisfy `p`. */
  ghost function Count<K, V>(m: map<K, V>, p: V -> bool): nat {
    |KeysWhere(m, p)|
  }

  ghost function KeysWhere<K, V>(m: map<K, V>, p: V -> bool): set<K> {
    set k | k in m && p(m[k])
  }

  const IsJobAttached: Handler -> bool := (h: Handler) => h.JobAttached?
  const IsFailureCounted: Handler -> bool := (h: Handler) => h.FailureCounted?

  /** The API stops and starts again: every call in flight, the sweep and the counters are lost;
      the table, the volume, Ray and its processes stay. */
  ghost function Restarted(s: System): System {
    s.(handlers := map[], poller := Sleeping, readers := map[], metrics := ZERO,
       ledger := s.ledger.(
         attachedUncounted := s.ledger.attachedUncounted + Count(s.handlers, IsJobAttached),
         countedUnmarked := s.ledger.countedUnmarked + Count(s.handlers, IsFailureCounted),
         forgotten := Metrics(s.ledger.forgotten.submitted + s.metrics.submitted,
                              s.ledger.forgotten.terminal + s.metrics.terminal,
                              s.ledger.forgotten.submitFailures + s.metrics.submitFailures)))
  }

  // ---- Runs ----

  /** Where a list of actions leads from `s`; None if some action is not enabled in its turn. */
  ghost function Run(models: Models, s: System, actions: seq<Action>): Option<System> {
    if actions == [] then Some(s)
    else
      var before := Run(models, s, actions[..|actions| - 1]);
      if before.None? then None else Step(models, before.value, actions[|actions| - 1])
  }
}
