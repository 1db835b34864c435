/** The runs of the worker that exit with 0: each ends in the directory that FullRun computes, and each
    such directory is the end of a run. */
module FullRuns {
  import opened Wrappers
  import opened Text
  import opened Jsonl
  import opened Predictor
  import opened Pipeline
  import opened Domain
  import opened Worker

  /** The directory after an undisturbed run that starts in `d`, is handed `total` rows and
      stages `output` under `name`. */
  function FullRun(d: Dir, total: nat, name: string, output: seq<OutRow>): Dir {
    var promoted := FirstWith(StagedFiles(d), name, output);
    Dir(d.input, None, {}, Some(promoted), Whole(PayloadFor(total, promoted)), Absent)
  }

  /** The rows of the file that is promoted when `output` is staged under `name` beside others. */
  function FirstWith(stale: map<string, seq<OutRow>>, name: string, output: seq<OutRow>): seq<OutRow> {
    var files := stale[name := output];
    assert name in files.Keys;
    FirstFile(files)
  }

  /** A run of the worker that starts in `d` and exits with 0 leaves `after`. */
  ghost predicate RunsTo(model: Model, d: Dir, actions: seq<Action>, after: Dir) {
    Exec(model, Config(NotStarted, d), actions) == Some(Config(Exited(0), after))
  }

  // ---- Every such run ----

  /** What some valid schedule makes of the rows. */
  ghost predicate Planned(model: Model, rows: seq<InputRow>, output: seq<OutRow>) {
    exists plan :: ValidPlan(rows, plan) && output == Output(model, plan)
  }

  ghost predicate PromotedFrom(model: Model, rows: seq<InputRow>, d: Dir, promoted: seq<OutRow>) {
    exists name, output :: Planned(model, rows, output) && promoted == FirstWith(StagedFiles(d), name, output)
  }

  /** The promoted file stands in `e`, and the counts are its own. */
  ghost predicate CountsOf(model: Model, rows: seq<InputRow>, d: Dir, e: Dir, total: nat, completed: nat, failed: nat) {
    && total == |rows| && e.results.Some? && PromotedFrom(model, rows, d, e.results.value)
    && completed == CompletedCount(e.results.value) && failed == FailedCount(e.results.value)
  }

  ghost predicate Published(model: Model, rows: seq<InputRow>, d: Dir, e: Dir) {
    && e.results.Some? && PromotedFrom(model, rows, d, e.results.value)
    && e.success == Whole(PayloadFor(|rows|, e.results.value)) && e.failed == Absent
  }

  /** How a run that started in `d` and loaded `rows` has changed the directory, by where it is. */
  ghost predicate Since(model: Model, rows: seq<InputRow>, d: Dir, c: Config) {
    var p, e := c.process, c.dir;
    && e.input == d.input
    && match p
       case NotStarted => StagedFiles(e) == StagedFiles(d)
       case Loaded(loaded) => loaded == rows && StagedFiles(e) == StagedFiles(d)
       case StagingReady(loaded) => loaded == rows && StagedFiles(e) == StagedFiles(d)
       case Writing(total, name, output, written) =>
         && total == |rows| && Planned(model, rows, output) && written <= |output|
         && e.staging == Some(StagedFiles(d)[name := output[..written]])
       case Staged(total, name, output) =>
         && total == |rows| && Planned(model, rows, output) && e.staging == Some(StagedFiles(d)[name := output])
       case Promoted(total) =>
         total == |rows| && e.results.Some? && PromotedFrom(model, rows, d, e.results.value)
       case Tallied(total, completed, failed) => CountsOf(model, rows, d, e, total, completed, failed)
       case FailureCleared(total, completed, failed) =>
         CountsOf(model, rows, d, e, total, completed, failed) && e.failed == Absent
       case MarkerOpened(total, completed, failed) =>
         CountsOf(model, rows, d, e, total, completed, failed) && e.failed == Absent
       case MarkerWritten(_, _, _) => Published(model, rows, d, e)
       case CleanedUp => Published(model, rows, d, e) && e.staging == None && e.others == {}
       case Exited(code) => code == 0 ==> Published(model, rows, d, e) && e.staging == None && e.others == {}
       case Raising(_) => true
       case FailureOpened(_) => true
       case Killed => true
  }

  lemma SincePrepares(model: Model, rows: seq<InputRow>, d: Dir, c: Config, a: Action, c': Config)
    requires d.input.Some? && DecodeFile(d.input.value) == Some(rows)
    requires Since(model, rows, d, c) && PrepareAction(a) && PrepareStep(model, c, a) == Some(c')
    ensures Since(model, rows, d, c')
  {
    if a.RunPipeline? {
      assert c'.process.output[..0] == [];
    }
  }

  lemma SinceStages(model: Model, rows: seq<InputRow>, d: Dir, c: Config, a: Action, c': Config)
    requires Since(model, rows, d, c) && StageAction(a) && !a.Promote? && StageStep(c, a) == Some(c')
    ensures Since(model, rows, d, c')
  {
    var p, stale := c.process, StagedFiles(d);
    if a.WriteRow? {
      var k := p.written;
      assert stale[p.name := p.output[..k]][p.name := p.output[..k + 1]] == stale[p.name := p.output[..k + 1]];
    } else if a.CloseStaged? {
      assert p.output[..|p.output|] == p.output;
    }
  }

  lemma SincePromotes(model: Model, rows: seq<InputRow>, d: Dir, c: Config, c': Config)
    requires Since(model, rows, d, c) && StageStep(c, Promote) == Some(c')
    ensures Since(model, rows, d, c')
  {
    var p := c.process;
    assert p.name in StagedFiles(c.dir).Keys;
    assert c'.dir.results == Some(FirstWith(StagedFiles(d), p.name, p.output));
  }

  lemma SinceMarks(model: Model, rows: seq<InputRow>, d: Dir, c: Config, a: Action, c': Config)
    requires Since(model, rows, d, c) && MarkAction(a) && MarkStep(c, a) == Some(c')
    ensures Since(model, rows, d, c')
  {
  }

  lemma SinceEnds(model: Model, rows: seq<InputRow>, d: Dir, c: Config, a: Action, c': Config)
    requires Since(model, rows, d, c) && EndAction(a) && EndStep(c, a) == Some(c')
    ensures Since(model, rows, d, c')
  {
  }

  lemma SinceStops(model: Model, rows: seq<InputRow>, d: Dir, c: Config, a: Action, c': Config)
    requires Since(model, rows, d, c)
    requires !PrepareAction(a) && !StageAction(a) && !MarkAction(a) && !EndAction(a) && StopStep(c, a) == Some(c')
    ensures Since(model, rows, d, c')
  {
  }

  lemma SinceStep(model: Model, rows: seq<InputRow>, d: Dir, c: Config, a: Action, c': Config)
    requires d.input.Some? && DecodeFile(d.input.value) == Some(rows)
    requires Since(model, rows, d, c) && Step(model, c, a) == Some(c')
    ensures Since(model, rows, d, c')
  {
    if PrepareAction(a) {
      SincePrepares(model, rows, d, c, a, c');
    } else if a.Promote? {
      SincePromotes(model, rows, d, c, c');
    } else if StageAction(a) {
      SinceStages(model, rows, d, c, a, c');
    } else if MarkAction(a) {
      SinceMarks(model, rows, d, c, a, c');
    } else if EndAction(a) {
      SinceEnds(model, rows, d, c, a, c');
    } else {
      SinceStops(model, rows, d, c, a, c');
    }
  }

  lemma {:induction false} RunIsSince(model: Model, rows: seq<InputRow>, d: Dir, actions: seq<Action>, c: Config)
    requires d.input.Some? && DecodeFile(d.input.value) == Some(rows)
    requires Exec(model, Config(NotStarted, d), actions) == Some(c)
    ensures Since(model, rows, d, c)
  {
    if actions != [] {
      var last := |actions| - 1;
      var before := Exec(model, Config(NotStarted, d), actions[..last]).value;
      RunIsSince(model, rows, d, actions[..last], before);
      SinceStep(model, rows, d, before, actions[last], c);
    }
  }

  /** Whatever directory a run starts in, if it exits with 0 it leaves the full run of some schedule under
      some name. */
  lemma ExitIsFullRun(model: Model, rows: seq<InputRow>, d: Dir, actions: seq<Action>, after: Dir)
    returns (plan: Plan, name: string)
    requires d.input.Some? && DecodeFile(d.input.value) == Some(rows)
    requires RunsTo(model, d, actions, after)
    ensures ValidPlan(rows, plan) && after == FullRun(d, |rows|, name, Output(model, plan))
  {
    RunIsSince(model, rows, d, actions, Config(Exited(0), after));
    var found, output :| Planned(model, rows, output)
                         && after.results.value == FirstWith(StagedFiles(d), found, output);
    name := found;
    plan :| ValidPlan(rows, plan) && output == Output(model, plan);
  }

  // ---- There is such a run ----

  lemma WorkThen(model: Model, start: Config, work: seq<Action>, c: Config, w: Action) returns (longer: seq<Action>)
    requires Exec(model, start, work) == Some(c)
    ensures Exec(model, start, longer) == Step(model, c, w)
  {
    ExecOneMore(model, start, work, w);
    longer := work + [w];
  }

  /** The worker with `k` rows of its staged file written. */
  function Staging(d: Dir, total: nat, name: string, output: seq<OutRow>, k: nat): Config
    requires k <= |output|
  {
    Config(Writing(total, name, output, k), d.(staging := Some(StagedFiles(d)[name := output[..k]])))
  }

  lemma OpenRuns(model: Model, d: Dir, rows: seq<InputRow>, plan: Plan, name: string) returns (work: seq<Action>)
    requires d.input.Some? && DecodeFile(d.input.value) == Some(rows) && ValidPlan(rows, plan)
    ensures Exec(model, Config(NotStarted, d), work) == Some(Staging(d, |rows|, name, Output(model, plan), 0))
  {
    var start := Config(NotStarted, d);
    work := WorkThen(model, start, [], start, LoadInput);
    assert PrepareStep(model, start, LoadInput) == Some(Config(Loaded(rows), d));
    work := PipelineRuns(model, start, work, rows, d, plan, name);
    assert Output(model, plan)[..0] == [];
  }

  lemma PipelineRuns(model: Model, start: Config, loaded: seq<Action>, rows: seq<InputRow>, d: Dir, plan: Plan,
                     name: string) returns (work: seq<Action>)
    requires Exec(model, start, loaded) == Some(Config(Loaded(rows), d)) && ValidPlan(rows, plan)
    ensures Exec(model, start, work)
         == Some(Config(Writing(|rows|, name, Output(model, plan), 0), d.(staging := Some(StagedFiles(d)[name := []]))))
  {
    var ready := Config(StagingReady(rows), d.(staging := Some(StagedFiles(d))));
    work := WorkThen(model, start, loaded, Config(Loaded(rows), d), MakeStaging);
    assert PrepareStep(model, Config(Loaded(rows), d), MakeStaging) == Some(ready);
    work := WorkThen(model, start, work, ready, RunPipeline(plan, name));
  }

  lemma RowStaged(model: Model, d: Dir, total: nat, name: string, output: seq<OutRow>, k: nat)
    requires k < |output|
    ensures Step(model, Staging(d, total, name, output, k), WriteRow) == Some(Staging(d, total, name, output, k + 1))
  {
    var stale := StagedFiles(d);
    assert stale[name := output[..k]][name := output[..k + 1]] == stale[name := output[..k + 1]];
  }

  lemma {:induction false} WritingRuns(model: Model, start: Config, begun: seq<Action>, d: Dir, total: nat,
                                       name: string, output: seq<OutRow>, k: nat) returns (work: seq<Action>)
    requires Exec(model, start, begun) == Some(Staging(d, total, name, output, 0)) && k <= |output|
    ensures Exec(model, start, work) == Some(Staging(d, total, name, output, k))
  {
    if k == 0 {
      work := begun;
    } else {
      work := WritingRuns(model, start, begun, d, total, name, output, k - 1);
      RowStaged(model, d, total, name, output, k - 1);
      work := WorkThen(model, start, work, Staging(d, total, name, output, k - 1), WriteRow);
    }
  }

  /** A run can write any number of rows of its staged file. */
  lemma StagingRuns(model: Model, d: Dir, rows: seq<InputRow>, plan: Plan, name: string, k: nat)
    returns (work: seq<Action>)
    requires d.input.Some? && DecodeFile(d.input.value) == Some(rows) && ValidPlan(rows, plan)
    requires k <= |Output(model, plan)|
    ensures Exec(model, Config(NotStarted, d), work) == Some(Staging(d, |rows|, name, Output(model, plan), k))
  {
    work := OpenRuns(model, d, rows, plan, name);
    work := WritingRuns(model, Config(NotStarted, d), work, d, |rows|, name, Output(model, plan), k);
  }

  /** What the staging directory holds is promoted. */
  lemma PromoteRuns(model: Model, start: Config, staged: seq<Action>, d: Dir, total: nat, name: string,
                    output: seq<OutRow>) returns (work: seq<Action>, e: Dir)
    requires Exec(model, start, staged) == Some(Staging(d, total, name, output, |output|))
    ensures Exec(model, start, work) == Some(Config(Promoted(total), e))
    ensures e.input == d.input && e.results == Some(FirstWith(StagedFiles(d), name, output)) && e.staging.Some?
  {
    assert output[..|output|] == output;
    var files := StagedFiles(d)[name := output];
    assert name in files.Keys;
    var closed := Config(Staged(total, name, output), d.(staging := Some(files)));
    work := WorkThen(model, start, staged, Staging(d, total, name, output, |output|), CloseStaged);
    work := WorkThen(model, start, work, closed, Promote);
    e := closed.dir.(results := Some(FirstFile(files)), staging := Some(files - {FirstName(files.Keys)}));
    assert StageStep(closed, Promote) == Some(Config(Promoted(total), e));
  }

  lemma CountRuns(model: Model, start: Config, done: seq<Action>, total: nat, e: Dir) returns (work: seq<Action>)
    requires Exec(model, start, done) == Some(Config(Promoted(total), e)) && e.results.Some?
    ensures var rows := e.results.value;
            Exec(model, start, work)
            == Some(Config(FailureCleared(total, CompletedCount(rows), FailedCount(rows)), e.(failed := Absent)))
  {
    var rows := e.results.value;
    work := WorkThen(model, start, done, Config(Promoted(total), e), TallyRows);
    work := WorkThen(model, start, work, Config(Tallied(total, CompletedCount(rows), FailedCount(rows)), e), ClearFailure);
  }

  lemma MarkRuns(model: Model, start: Config, done: seq<Action>, total: nat, ok: nat, bad: nat, e: Dir)
    returns (work: seq<Action>)
    requires Exec(model, start, done) == Some(Config(FailureCleared(total, ok, bad), e))
    ensures Exec(model, start, work)
         == Some(Config(MarkerWritten(total, ok, bad), e.(success := Whole(SuccessPayload(total, Some(ok), Some(bad))))))
  {
    work := WorkThen(model, start, done, Config(FailureCleared(total, ok, bad), e), OpenMarker);
    work := WorkThen(model, start, work, Config(MarkerOpened(total, ok, bad), e.(success := Torn)), WriteMarker);
  }

  /** All files of the staging directory can be unlinked one by one. */
  lemma {:induction false} LeftoverRuns(model: Model, start: Config, done: seq<Action>, p: Process, e: Dir)
    returns (work: seq<Action>)
    requires Exec(model, start, done) == Some(Config(p, e)) && p.MarkerWritten? && e.staging.Some?
    ensures Exec(model, start, work) == Some(Config(p, e.(staging := Some(map[]), others := {})))
    decreases e.staging.value.Keys + e.others
  {
    var left := e.staging.value.Keys + e.others;
    if left == {} {
      work := done;
      assert forall name | name in e.others :: name in left;
      assert forall name | name in e.staging.value :: name in left;
      assert e.staging.value == map[] && e.others == {};
    } else {
      var name :| name in left;
      var fewer := e.(staging := Some(e.staging.value - {name}), others := e.others - {name});
      work := WorkThen(model, start, done, Config(p, e), RemoveLeftover(name));
      assert EndStep(Config(p, e), RemoveLeftover(name)) == Some(Config(p, fewer));
      assert name !in fewer.staging.value.Keys + fewer.others;
      work := LeftoverRuns(model, start, work, p, fewer);
    }
  }

  lemma CleanUpRuns(model: Model, start: Config, done: seq<Action>, p: Process, e: Dir) returns (work: seq<Action>)
    requires Exec(model, start, done) == Some(Config(p, e)) && p.MarkerWritten? && e.staging.Some?
    ensures Exec(model, start, work) == Some(Config(Exited(0), e.(staging := None, others := {})))
  {
    work := LeftoverRuns(model, start, done, p, e);
    work := WorkThen(model, start, work, Config(p, e.(staging := Some(map[]), others := {})), RemoveStaging);
    work := WorkThen(model, start, work, Config(CleanedUp, e.(staging := None, others := {})), Return);
  }

  /** From any directory with a readable input, any schedule under any name can run through to exit code 0. */
  lemma FullRunExists(model: Model, rows: seq<InputRow>, d: Dir, plan: Plan, name: string) returns (work: seq<Action>)
    requires d.input.Some? && DecodeFile(d.input.value) == Some(rows) && ValidPlan(rows, plan)
    ensures RunsTo(model, d, work, FullRun(d, |rows|, name, Output(model, plan)))
  {
    var start, output := Config(NotStarted, d), Output(model, plan);
    var e;
    work := StagingRuns(model, d, rows, plan, name, |output|);
    work, e := PromoteRuns(model, start, work, d, |rows|, name, output);
    var promoted := e.results.value;
    var ok, bad := CompletedCount(promoted), FailedCount(promoted);
    work := CountRuns(model, start, work, |rows|, e);
    e := e.(failed := Absent);
    work := MarkRuns(model, start, work, |rows|, ok, bad, e);
    e := e.(success := Whole(SuccessPayload(|rows|, Some(ok), Some(bad))));
    work := CleanUpRuns(model, start, work, MarkerWritten(|rows|, ok, bad), e);
  }
}
