/** The worker process of one batch, as a machine over its file operations. Every step may be
    the last one, because the process may be killed anywhere. */
module Worker {
  import opened Wrappers
  import opened Text
  import opened Jsonl
  import opened Predictor
  import opened Pipeline
  import opened Domain

  /** Where the process is, with the local variables that are still needed. */
  datatype Process =
    | NotStarted
    | Loaded(rows: seq<InputRow>)
    | StagingReady(rows: seq<InputRow>)
    | Writing(total: nat, name: string, output: seq<OutRow>, written: nat)
    | Staged(total: nat, name: string, output: seq<OutRow>)
    | Promoted(total: nat)
    | Tallied(total: nat, completed: nat, failed: nat)
    | FailureCleared(total: nat, completed: nat, failed: nat)
    | MarkerOpened(total: nat, completed: nat, failed: nat)
    | MarkerWritten(total: nat, completed: nat, failed: nat)
    | CleanedUp
    | Raising(error: string)
    | FailureOpened(error: string)
    | Exited(code: int)
    | Killed
  {
    predicate Ended() {
      Exited? || Killed?
    }

    /** Inside `run_batch`, whose exceptions `main` catches. */
    predicate InRunBatch() {
      !Raising? && !FailureOpened? && !Ended()
    }
  }

  datatype Action =
    | LoadInput
    | MakeStaging
    | RunPipeline(plan: Plan, name: string)
    | WriteRow
    | LeaveOther(file: string)
    | CloseStaged
    | Promote
    | TallyRows
    | ClearFailure
    | OpenMarker
    | WriteMarker
    | RemoveLeftover(leftover: string)
    | RemoveStaging
    | Return
    | Raise(error: string)
    | OpenFailure
    | WriteFailure
    | Kill

  datatype Config = Config(process: Process, dir: Dir)

  const MISSING_INPUT := "Input file not found"
  const NO_OUTPUT := "Ray Data wrote no output files"
  const BAD_INPUT := "input.jsonl is malformed"

  predicate PrepareAction(a: Action) {
    a.LoadInput? || a.MakeStaging? || a.RunPipeline?
  }

  predicate StageAction(a: Action) {
    a.WriteRow? || a.LeaveOther? || a.CloseStaged? || a.Promote?
  }

  predicate MarkAction(a: Action) {
    a.TallyRows? || a.ClearFailure? || a.OpenMarker? || a.WriteMarker?
  }

  predicate EndAction(a: Action) {
    a.RemoveLeftover? || a.RemoveStaging? || a.Return?
  }

  /** One file operation of the process; None where the action is not what comes next. */
  ghost function Step(model: Model, c: Config, a: Action): Option<Config> {
    if PrepareAction(a) then PrepareStep(model, c, a)
    else if StageAction(a) then StageStep(c, a)
    else if MarkAction(a) then MarkStep(c, a)
    else if EndAction(a) then EndStep(c, a)
    else StopStep(c, a)
  }

  ghost function PrepareStep(model: Model, c: Config, a: Action): Option<Config>
    requires PrepareAction(a)
  {
    var p, d := c.process, c.dir;
    match a
    case LoadInput =>
      if !p.NotStarted? then None
      else if d.input.None? then Some(c.(process := Raising(MISSING_INPUT)))
      else if DecodeFile(d.input.value).None? then Some(c.(process := Raising(BAD_INPUT)))
      else Some(c.(process := Loaded(DecodeFile(d.input.value).value)))
    case MakeStaging =>
      if !p.Loaded? then None
      else Some(Config(StagingReady(p.rows), d.(staging := Some(StagedFiles(d)))))
    case RunPipeline(plan, name) =>
      if !p.StagingReady? || !ValidPlan(p.rows, plan) then None
      else Some(Config(Writing(|p.rows|, name, Output(model, plan), 0),
                       d.(staging := Some(StagedFiles(d)[name := []]))))
  }

  function StageStep(c: Config, a: Action): Option<Config>
    requires StageAction(a)
  {
    var p, d := c.process, c.dir;
    match a
    case WriteRow =>
      if !p.Writing? || p.written >= |p.output| then None
      else Some(Config(p.(written := p.written + 1),
                       d.(staging := Some(StagedFiles(d)[p.name := p.output[..p.written + 1]]))))
    case LeaveOther(file) =>
      if !p.Writing? then None else Some(c.(dir := d.(others := d.others + {file})))
    case CloseStaged =>
      if !p.Writing? || p.written != |p.output| then None
      else Some(c.(process := Staged(p.total, p.name, p.output)))
    case Promote =>
      if !p.Staged? then None
      else if StagedFiles(d) == map[] then Some(c.(process := Raising(NO_OUTPUT)))
      else
        var first := FirstName(StagedFiles(d).Keys);
        Some(Config(Promoted(p.total),
                    d.(results := Some(StagedFiles(d)[first]), staging := Some(StagedFiles(d) - {first}))))
  }

  function MarkStep(c: Config, a: Action): Option<Config>
    requires MarkAction(a)
  {
    var p, d := c.process, c.dir;
    match a
    case TallyRows =>
      if !p.Promoted? || d.results.None? then None
      else Some(c.(process := Tallied(p.total, CompletedCount(d.results.value), FailedCount(d.results.value))))
    case ClearFailure =>
      if !p.Tallied? then None
      else Some(Config(FailureCleared(p.total, p.completed, p.failed), d.(failed := Absent)))
    case OpenMarker =>
      if !p.FailureCleared? then None
      else Some(Config(MarkerOpened(p.total, p.completed, p.failed), d.(success := Torn)))
    case WriteMarker =>
      if !p.MarkerOpened? then None
      else Some(Config(MarkerWritten(p.total, p.completed, p.failed),
                       d.(success := Whole(SuccessPayload(p.total, Some(p.completed), Some(p.failed))))))
  }

  function EndStep(c: Config, a: Action): Option<Config>
    requires EndAction(a)
  {
    var p, d := c.process, c.dir;
    match a
    case RemoveLeftover(name) =>
      if !p.MarkerWritten? || (name !in StagedFiles(d) && name !in d.others) then None
      else Some(c.(dir := d.(staging := Some(StagedFiles(d) - {name}), others := d.others - {name})))
    case RemoveStaging =>
      if !p.MarkerWritten? || StagedFiles(d) != map[] || d.others != {} then None
      else Some(Config(CleanedUp, d.(staging := None)))
    case Return =>
      if !p.CleanedUp? then None else Some(c.(process := Exited(0)))
  }

  function StopStep(c: Config, a: Action): Option<Config>
    requires !PrepareAction(a) && !StageAction(a) && !MarkAction(a) && !EndAction(a)
  {
    var p, d := c.process, c.dir;
    match a
    case Raise(error) =>
      if !p.InRunBatch() then None else Some(c.(process := Raising(error)))
    case OpenFailure =>
      if !p.Raising? then None
      else Some(Config(FailureOpened(p.error), d.(failed := Torn)))
    case WriteFailure =>
      if !p.FailureOpened? then None
      else Some(Config(Exited(1), d.(failed := Whole(Fields(Some(p.error))))))
    case Kill =>
      if p.Ended() then None else Some(c.(process := Killed))
  }

  /** The `*.json` files of the staging directory; none if there is no such directory. */
  function StagedFiles(dir: Dir): map<string, seq<OutRow>> {
    if dir.staging.None? then map[] else dir.staging.value
  }

  /** Where a list of actions leads from `c`; None if some action is not enabled in its turn. */
  ghost function Exec(model: Model, c: Config, actions: seq<Action>): Option<Config> {
    if actions == [] then Some(c)
    else
      var before := Exec(model, c, actions[..|actions| - 1]);
      if before.None? then None else Step(model, before.value, actions[|actions| - 1])
  }

  lemma ExecOneMore(model: Model, c: Config, actions: seq<Action>, a: Action)
    ensures var before := Exec(model, c, actions);
            Exec(model, c, actions + [a]) == (if before.None? then None else Step(model, before.value, a))
  {
    assert (actions + [a])[..|actions|] == actions;
  }

  /** The rows of the first file by name, the one that is promoted. */
  function FirstFile(files: map<string, seq<OutRow>>): (rows: seq<OutRow>)
    requires files.Keys != {}
  {
    files[FirstName(files.Keys)]
  }

  // ---- A batch's first run ----

  /** The directory the API leaves for the worker. */
  function FreshDir(prompts: seq<string>): Dir {
    Dir(Some(EncodeFile(prompts)), None, {}, None, Absent, Absent)
  }

  /** What holds of the published files at every moment of a first run, wherever it stops. */
  ghost predicate Atomic(model: Model, prompts: seq<string>, d: Dir) {
    && d.input == Some(EncodeFile(prompts))
    && (d.results.Some? ==> Complete(model, prompts, d.results.value))
    && (d.success != Absent ==> d.results.Some?)
    && (d.success.Whole? ==> d.results.Some? && d.success.payload == PayloadFor(|prompts|, d.results.value))
    && (d.failed.Whole? ==> d.failed.payload.Fields? && d.failed.payload.error.Some?)
  }

  /** What the position of a first run says about the directory. */
  ghost predicate FirstRun(model: Model, prompts: seq<string>, c: Config) {
    var p, d := c.process, c.dir;
    && Atomic(model, prompts, d)
    && match p
       case NotStarted => Pristine(d)
       case Loaded(rows) => rows == NumberRows(prompts) && Pristine(d)
       case StagingReady(rows) => rows == NumberRows(prompts) && d.staging == Some(map[]) && Unpublished(d)
       case Writing(total, name, output, written) =>
         && total == |prompts| && Complete(model, prompts, output) && written <= |output|
         && d.staging == Some(map[name := output[..written]]) && Unpublished(d)
       case Staged(total, name, output) =>
         && total == |prompts| && Complete(model, prompts, output)
         && d.staging == Some(map[name := output]) && Unpublished(d)
       case Promoted(total) =>
         total == |prompts| && d.results.Some? && d.staging == Some(map[]) && d.success == Absent
       case Tallied(total, completed, failed) =>
         Counted(prompts, c, total, completed, failed) && d.success == Absent
       case FailureCleared(total, completed, failed) =>
         Counted(prompts, c, total, completed, failed) && d.success == Absent
       case MarkerOpened(total, completed, failed) =>
         Counted(prompts, c, total, completed, failed)
       case MarkerWritten(total, completed, failed) =>
         Counted(prompts, c, total, completed, failed) && d.success.Whole?
       case CleanedUp => d.success.Whole? && d.staging == None && d.others == {}
       case Exited(code) => code == 0 ==> d.success.Whole? && d.staging == None && d.others == {}
       case _ => true
  }

  ghost predicate Counted(prompts: seq<string>, c: Config, total: nat, completed: nat, failed: nat) {
    && total == |prompts| && c.dir.results.Some? && c.dir.staging == Some(map[])
    && completed == CompletedCount(c.dir.results.value) && failed == FailedCount(c.dir.results.value)
  }

  lemma FirstRunStarts(model: Model, prompts: seq<string>)
    ensures FirstRun(model, prompts, Config(NotStarted, FreshDir(prompts)))
  {
  }

  lemma FirstRunWrites(model: Model, prompts: seq<string>, c: Config, a: Action, c': Config)
    requires FirstRun(model, prompts, c) && !a.Promote? && StageAction(a) && StageStep(c, a) == Some(c')
    ensures FirstRun(model, prompts, c')
  {
    var p := c.process;
    assert p.output[..|p.output|] == p.output;
    if a.WriteRow? {
      var k := p.written + 1;
      assert map[p.name := p.output[..p.written]][p.name := p.output[..k]] == map[p.name := p.output[..k]];
    }
  }

  lemma FirstRunPrepares(model: Model, prompts: seq<string>, c: Config, a: Action, c': Config)
    requires FirstRun(model, prompts, c) && PrepareAction(a) && PrepareStep(model, c, a) == Some(c')
    ensures FirstRun(model, prompts, c')
  {
    if a.LoadInput? {
      FileRoundTrip(prompts);
    } else if a.RunPipeline? {
      ScheduleIndependence(model, prompts, a.plan);
      assert map[][a.name := []] == map[a.name := c'.process.output[..0]];
    }
  }

  /** The one staged file is the first by name. */
  lemma OnlyStagedFile(name: string, output: seq<OutRow>)
    ensures var files := map[name := output];
            && files != map[] && FirstName(files.Keys) == name && files - {name} == map[]
  {
    assert name in map[name := output];
  }

  lemma FirstRunPromotes(model: Model, prompts: seq<string>, c: Config, c': Config)
    requires FirstRun(model, prompts, c) && StageStep(c, Promote) == Some(c')
    ensures FirstRun(model, prompts, c') && c'.process.Promoted?
  {
    OnlyStagedFile(c.process.name, c.process.output);
  }

  lemma FirstRunMarks(model: Model, prompts: seq<string>, c: Config, a: Action, c': Config)
    requires FirstRun(model, prompts, c) && MarkAction(a) && MarkStep(c, a) == Some(c')
    ensures FirstRun(model, prompts, c')
  {
  }

  lemma FirstRunEnds(model: Model, prompts: seq<string>, c: Config, a: Action, c': Config)
    requires FirstRun(model, prompts, c) && EndAction(a) && EndStep(c, a) == Some(c')
    ensures FirstRun(model, prompts, c')
  {
  }

  lemma FirstRunStops(model: Model, prompts: seq<string>, c: Config, a: Action, c': Config)
    requires FirstRun(model, prompts, c)
    requires !PrepareAction(a) && !StageAction(a) && !MarkAction(a) && !EndAction(a) && StopStep(c, a) == Some(c')
    ensures FirstRun(model, prompts, c')
  {
  }

  /** Every step of a first run keeps the published files consistent. */
  lemma FirstRunStep(model: Model, prompts: seq<string>, c: Config, a: Action, c': Config)
    requires FirstRun(model, prompts, c) && Step(model, c, a) == Some(c')
    ensures FirstRun(model, prompts, c')
  {
    if PrepareAction(a) {
      FirstRunPrepares(model, prompts, c, a, c');
    } else if a.Promote? {
      FirstRunPromotes(model, prompts, c, c');
    } else if StageAction(a) {
      FirstRunWrites(model, prompts, c, a, c');
    } else if MarkAction(a) {
      FirstRunMarks(model, prompts, c, a, c');
    } else if EndAction(a) {
      FirstRunEnds(model, prompts, c, a, c');
    } else {
      FirstRunStops(model, prompts, c, a, c');
    }
  }

  /** Crash atomicity: however far a first run gets before it is killed or raises, the result
      file is absent or complete, and a written `_SUCCESS` counts exactly that file. */
  lemma {:induction false} CrashAtomicity(model: Model, prompts: seq<string>, actions: seq<Action>, c: Config)
    requires Exec(model, Config(NotStarted, FreshDir(prompts)), actions) == Some(c)
    ensures FirstRun(model, prompts, c)
  {
    if actions == [] {
      FirstRunStarts(model, prompts);
    } else {
      var last := |actions| - 1;
      var before := Exec(model, Config(NotStarted, FreshDir(prompts)), actions[..last]).value;
      CrashAtomicity(model, prompts, actions[..last], before);
      FirstRunStep(model, prompts, before, actions[last], c);
    }
  }

  /** A first run never raises the missing-input error: it always loads the submitted prompts. */
  lemma InputIsNeverMissing(model: Model, prompts: seq<string>, c: Config, c': Config)
    requires FirstRun(model, prompts, c) && Step(model, c, LoadInput) == Some(c')
    ensures c'.process == Loaded(NumberRows(prompts))
  {
    FileRoundTrip(prompts);
  }
}
