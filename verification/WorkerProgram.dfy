/** The worker program itself, statement by statement: `run_batch` and `main`. */
module WorkerProgram {
  import opened Wrappers
  import opened Text
  import opened Jsonl
  import opened Predictor
  import opened Results
  import opened Pipeline
  import opened Domain
  import opened Worker
  import opened FullRuns

  /** Where an exception strikes, if one does: before the named statement of `run_batch`, or
      after some rows of the staged file. */
  datatype Fault =
    | NoFault
    | AtInput
    | AtMkdir
    | WhileStaging(rows: nat)
    | AtPromotion
    | AtTally
    | AtUnlink
    | AtMarker
    | WhileMarking
    | AtCleanup

  const FAULT := "I/O error"

  /** The exception a disturbed run ends in: that of a fault, or that of an input that is missing or malformed. */
  function LoadError(fault: Fault, input: Option<string>): string {
    if fault == AtInput then FAULT
    else if input.None? then "Input file not found"
    else if DecodeFile(input.value).None? then "input.jsonl is malformed"
    else FAULT
  }

  datatype Counts = Counts(total: nat, completed: nat, failed: nat)

  lemma Overwrite<K, V>(m: map<K, V>, k: K, before: V, after: V)
    ensures m[k := before][k := after] == m[k := after]
  {
  }

  /** The batch directory as the process sees it, with a record of the process's steps. */
  class BatchDirectory {
    const model: Model
    var input: Option<string>
    var staging: Option<map<string, seq<OutRow>>>
    var others: set<string>
    var results: Option<seq<OutRow>>
    var success: Marker<SuccessPayload>
    var failed: Marker<FailurePayload>

    ghost const found: Dir
    ghost var process: Process
    ghost var history: seq<Action>

    function View(): Dir
      reads this
    {
      Dir(input, staging, others, results, success, failed)
    }

    /** The steps so far are a run of the worker machine from the directory that was found. */
    ghost predicate Valid()
      reads this
    {
      Exec(model, Config(NotStarted, found), history) == Some(Config(process, View()))
    }

    constructor (model: Model, d: Dir)
      ensures Valid() && View() == d && this.model == model && found == d
      ensures process == NotStarted && history == []
    {
      this.model := model;
      input, staging, others := d.input, d.staging, d.others;
      results, success, failed := d.results, d.success, d.failed;
      found, process, history := d, NotStarted, [];
    }

    /** Records that what was just done to the directory is the machine's step `a`. */
    ghost method Record(a: Action, next: Process, before: Dir)
      requires Exec(model, Config(NotStarted, found), history) == Some(Config(process, before))
      requires Step(model, Config(process, before), a) == Some(Config(next, View()))
      modifies this`process, this`history
      ensures Valid() && process == next && history == old(history) + [a]
    {
      ExecOneMore(model, Config(NotStarted, found), history, a);
      history := history + [a];
      process := next;
    }

    /** Raises `error`: leaves `run_batch` for the handler in `main`. */
    ghost method RecordRaise(error: string)
      requires Valid() && process.InRunBatch()
      modifies this`process, this`history
      ensures Valid() && process == Raising(error)
    {
      Record(Raise(error), Raising(error), View());
    }

    /** Opens and reads input.jsonl. */
    method ReadInput(fault: Fault) returns (r: Result<seq<InputRow>, string>)
      requires Valid() && process == NotStarted
      modifies this`process, this`history
      ensures Valid()
      ensures r.Err? <==> fault == AtInput || input.None? || DecodeFile(input.value).None?
      ensures process == if r.Err? then Raising(r.error) else Loaded(r.value)
      ensures r.Err? ==> r.error == LoadError(fault, input)
      ensures r.Ok? ==> Some(r.value) == DecodeFile(input.value)
    {
      if fault == AtInput {
        RecordRaise(FAULT);
        return Err(FAULT);
      }
      if input.None? {
        Record(LoadInput, Raising(MISSING_INPUT), View());
        return Err(MISSING_INPUT);
      }
      var rows := DecodeFile(input.value);
      if rows.None? {
        Record(LoadInput, Raising(BAD_INPUT), View());
        return Err(BAD_INPUT);
      }
      Record(LoadInput, Loaded(rows.value), View());
      r := Ok(rows.value);
    }

    /** `staging_dir.mkdir(parents=True, exist_ok=True)`. */
    method MakeStagingDirectory(rows: seq<InputRow>)
      requires Valid() && process == Loaded(rows)
      modifies this`staging, this`process, this`history
      ensures Valid() && process == StagingReady(rows)
      ensures staging == Some(StagedFiles(old(View())))
    {
      ghost var before := View();
      if staging.None? {
        staging := Some(map[]);
      }
      assert PrepareStep(model, Config(Loaded(rows), before), MakeStaging) == Some(Config(StagingReady(rows), View()));
      Record(MakeStaging, StagingReady(rows), before);
    }

    /** Opens the one file of `out_ds.repartition(1).write_json(...)`. */
    method OpenStaged(rows: seq<InputRow>, plan: Plan, name: string)
      requires Valid() && process == StagingReady(rows) && ValidPlan(rows, plan) && staging.Some?
      modifies this`staging, this`process, this`history
      ensures Valid() && process == Writing(|rows|, name, Output(model, plan), 0)
      ensures staging == Some(StagedFiles(old(View()))[name := []])
    {
      ghost var before := View();
      staging := Some(staging.value[name := []]);
      Record(RunPipeline(plan, name), Writing(|rows|, name, Output(model, plan), 0), before);
    }

    method AppendStaged(total: nat, name: string, output: seq<OutRow>, k: nat)
      requires Valid() && process == Writing(total, name, output, k) && k < |output| && staging.Some?
      modifies this`staging, this`process, this`history
      ensures Valid() && process == Writing(total, name, output, k + 1)
      ensures staging == Some(StagedFiles(old(View()))[name := output[..k + 1]])
    {
      ghost var before := View();
      staging := Some(staging.value[name := output[..k + 1]]);
      Record(WriteRow, Writing(total, name, output, k + 1), before);
    }

    /** Writes the open staged file row by row, then closes it. */
    method FinishStaged(total: nat, name: string, output: seq<OutRow>, fault: Fault) returns (ok: bool)
      requires Valid() && process == Writing(total, name, output, 0)
      requires staging.Some? && name in staging.value && staging.value[name] == []
      modifies this`staging, this`process, this`history
      ensures Valid()
      ensures ok <==> !(fault.WhileStaging? && fault.rows <= |output|)
      ensures process == if ok then Worker.Staged(total, name, output) else Raising(FAULT)
      ensures staging == Some(StagedFiles(old(View()))[name := if ok then output else output[..fault.rows]])
    {
      ghost var stale := staging.value;
      var k := 0;
      assert stale[name := output[..0]] == stale;
      while k < |output| && fault != WhileStaging(k)
        invariant k <= |output|
        invariant Valid() && process == Writing(total, name, output, k)
        invariant staging == Some(stale[name := output[..k]])
        invariant fault.WhileStaging? ==> k <= fault.rows
      {
        AppendStaged(total, name, output, k);
        Overwrite(stale, name, output[..k], output[..k + 1]);
        k := k + 1;
      }
      ok := fault != WhileStaging(k);
      if ok {
        assert output[..k] == output;
        Record(CloseStaged, Worker.Staged(total, name, output), View());
      } else {
        RecordRaise(FAULT);
      }
    }

    /** Runs the pipeline and writes its one file. */
    method WriteStaged(rows: seq<InputRow>, plan: Plan, name: string, fault: Fault) returns (ok: bool)
      requires Valid() && process == StagingReady(rows) && ValidPlan(rows, plan) && staging.Some?
      modifies this`staging, this`process, this`history
      ensures Valid()
      ensures ok <==> !(fault.WhileStaging? && fault.rows <= |Output(model, plan)|)
      ensures process == if ok then Worker.Staged(|rows|, name, Output(model, plan)) else Raising(FAULT)
      ensures staging == Some(StagedFiles(old(View()))[name := if ok then Output(model, plan)
                                                               else Output(model, plan)[..fault.rows]])
    {
      ghost var stale := staging.value;
      OpenStaged(rows, plan, name);
      Overwrite(stale, name, [], Output(model, plan));
      if fault.WhileStaging? && fault.rows <= |Output(model, plan)| {
        Overwrite(stale, name, [], Output(model, plan)[..fault.rows]);
      }
      ok := FinishStaged(|rows|, name, Output(model, plan), fault);
    }

    /** `sorted(staging_dir.glob("*.json"))[0].rename(results_path)`; raises if there is no such file. */
    method PromoteFirst(total: nat, name: string, output: seq<OutRow>) returns (ok: bool)
      requires Valid() && process == Worker.Staged(total, name, output)
      modifies this`staging, this`results, this`process, this`history
      ensures Valid()
      ensures ok <==> StagedFiles(old(View())) != map[]
      ensures process == if ok then Promoted(total) else Raising(NO_OUTPUT)
      ensures results == if ok then Some(FirstFile(StagedFiles(old(View())))) else old(results)
      ensures ok ==> var files := StagedFiles(old(View()));
                     exists first | first in files :: results == Some(files[first])
                                                      && forall x | x in files :: CodePointLeq(first, x)
      ensures staging == if ok then Some(StagedFiles(old(View())) - {FirstName(StagedFiles(old(View())).Keys)})
                         else old(staging)
    {
      if staging.None? || staging.value.Keys == {} {
        Record(Promote, Raising(NO_OUTPUT), View());
        return false;
      }
      var files := staging.value;
      var first := FirstName(files.Keys);
      ghost var before := View();
      results := Some(files[first]);
      staging := Some(files - {first});
      Record(Promote, Promoted(total), before);
      ok := true;
    }

    /** Counts the rows of the promoted file from its text, line by line. */
    method Tally(total: nat) returns (completed: nat, failures: nat)
      requires Valid() && process == Promoted(total) && results.Some?
      modifies this`process, this`history
      ensures Valid() && process == Tallied(total, completed, failures)
      ensures completed == CompletedCount(results.value) && failures == FailedCount(results.value)
    {
      completed, failures := TallyFile(results.value);
      Record(TallyRows, Tallied(total, completed, failures), View());
    }

    /** `if error_marker.exists(): error_marker.unlink()`. */
    method ClearFailureMarker(counts: Counts)
      requires Valid() && process == Tallied(counts.total, counts.completed, counts.failed)
      modifies this`failed, this`process, this`history
      ensures Valid() && process == FailureCleared(counts.total, counts.completed, counts.failed)
      ensures failed == Absent
    {
      ghost var before := View();
      if failed != Absent {
        failed := Absent;
      }
      Record(ClearFailure, FailureCleared(counts.total, counts.completed, counts.failed), before);
    }

    /** `success_marker.write_text(...)`: opens the file, then writes it. */
    method WriteSuccessMarker(counts: Counts, fault: Fault) returns (ok: bool)
      requires Valid() && process == FailureCleared(counts.total, counts.completed, counts.failed)
      modifies this`success, this`process, this`history
      ensures Valid()
      ensures ok <==> fault != WhileMarking
      ensures process == if ok then MarkerWritten(counts.total, counts.completed, counts.failed) else Raising(FAULT)
      ensures success == if ok
                         then Whole(SuccessPayload(counts.total, Some(counts.completed), Some(counts.failed)))
                         else Torn
    {
      ghost var before := View();
      success := Torn;
      Record(OpenMarker, MarkerOpened(counts.total, counts.completed, counts.failed), before);
      if fault == WhileMarking {
        RecordRaise(FAULT);
        return false;
      }
      before := View();
      success := Whole(SuccessPayload(counts.total, Some(counts.completed), Some(counts.failed)));
      Record(WriteMarker, MarkerWritten(counts.total, counts.completed, counts.failed), before);
      ok := true;
    }

    method Unlink(leftover: string)
      requires Valid() && process.MarkerWritten? && staging.Some?
      requires leftover in staging.value.Keys + others
      modifies this`staging, this`others, this`process, this`history
      ensures Valid() && process == old(process)
      ensures staging == Some(StagedFiles(old(View())) - {leftover}) && others == old(others) - {leftover}
    {
      ghost var before := View();
      staging := Some(staging.value - {leftover});
      others := others - {leftover};
      Record(RemoveLeftover(leftover), process, before);
    }

    /** `for leftover in staging_dir.glob("*"): leftover.unlink()`. */
    method UnlinkAll()
      requires Valid() && process.MarkerWritten? && staging.Some?
      modifies this`staging, this`others, this`process, this`history
      ensures Valid() && process == old(process)
      ensures staging == Some(map[]) && others == {}
    {
      ghost var start := process;
      while staging.value.Keys + others != {}
        invariant Valid() && process == start && staging.Some?
        decreases if staging.Some? then staging.value.Keys + others else {}
      {
        var leftover :| leftover in staging.value.Keys + others;
        Unlink(leftover);
      }
    }

    /** Unlinks what is left in the staging directory, then removes it. */
    method CleanUp()
      requires Valid() && process.MarkerWritten? && staging.Some?
      modifies this`staging, this`others, this`process, this`history
      ensures Valid() && process == CleanedUp
      ensures staging == None && others == {}
    {
      UnlinkAll();
      ghost var before := View();
      staging := None;
      Record(RemoveStaging, CleanedUp, before);
    }

    /** Leaves `run_batch` if the fault strikes here. */
    method Strikes(fault: Fault, point: Fault) returns (raised: bool)
      requires Valid() && process.InRunBatch()
      modifies this`process, this`history
      ensures Valid()
      ensures raised <==> fault == point
      ensures process == if raised then Raising(FAULT) else old(process)
    {
      raised := fault == point;
      if raised {
        RecordRaise(FAULT);
      }
    }

    /** From the input to the staging directory. */
    method Prepare(fault: Fault) returns (r: Result<seq<InputRow>, string>)
      requires Valid() && process == NotStarted
      modifies this`staging, this`process, this`history
      ensures Valid()
      ensures r.Err? <==> fault == AtInput || fault == AtMkdir || input.None? || DecodeFile(input.value).None?
      ensures r.Ok? ==> Some(r.value) == DecodeFile(input.value)
      ensures process == if r.Ok? then StagingReady(r.value) else Raising(r.error)
      ensures r.Err? ==> r.error == LoadError(fault, input)
      ensures staging == if r.Ok? then Some(StagedFiles(old(View()))) else old(staging)
    {
      r := ReadInput(fault);
      if r.Err? {
        return;
      }
      var raised := Strikes(fault, AtMkdir);
      if raised {
        return Err(FAULT);
      }
      MakeStagingDirectory(r.value);
    }

    /** The first half of `run_batch`: from the input to the closed staged file. */
    method Stage(plan: Plan, name: string, fault: Fault) returns (r: Result<nat, string>)
      requires Valid() && process == NotStarted
      requires input.Some? && DecodeFile(input.value).Some? ==> ValidPlan(DecodeFile(input.value).value, plan)
      modifies this`staging, this`process, this`history
      ensures Valid()
      ensures fault == NoFault ==> (r.Ok? <==> input.Some? && DecodeFile(input.value).Some?)
      ensures process == if r.Ok? then Worker.Staged(r.value, name, Output(model, plan)) else Raising(r.error)
      ensures r.Ok? ==> input.Some? && DecodeFile(input.value).Some?
                        && r.value == |DecodeFile(input.value).value|
      ensures r.Ok? ==> staging == Some(StagedFiles(old(View()))[name := Output(model, plan)])
      ensures r.Err? ==> r.error == LoadError(fault, input)
    {
      var read := Prepare(fault);
      if read.Err? {
        return Err(read.error);
      }
      var written := WriteStaged(read.value, plan, name, fault);
      r := if written then Ok(|read.value|) else Err(FAULT);
    }

    /** From the staged file to the counts of the promoted one. */
    method PromoteAndTally(total: nat, name: string, output: seq<OutRow>, fault: Fault)
      returns (r: Result<Counts, string>)
      requires Valid() && process == Worker.Staged(total, name, output)
      requires staging.Some? && name in staging.value
      modifies this`staging, this`results, this`process, this`history
      ensures Valid()
      ensures fault == NoFault ==> r.Ok?
      ensures r.Err? ==> r.error == FAULT
      ensures process == if r.Ok? then Tallied(r.value.total, r.value.completed, r.value.failed) else Raising(r.error)
      ensures r.Ok? ==> var promoted := FirstFile(StagedFiles(old(View())));
                        && results == Some(promoted) && staging.Some?
                        && r.value == Counts(total, CompletedCount(promoted), FailedCount(promoted))
    {
      var raised := Strikes(fault, AtPromotion);
      if raised {
        return Err(FAULT);
      }
      var promoted := PromoteFirst(total, name, output);
      if !promoted {
        return Err(NO_OUTPUT);
      }
      raised := Strikes(fault, AtTally);
      if raised {
        return Err(FAULT);
      }
      var completed, failures := Tally(total);
      r := Ok(Counts(total, completed, failures));
    }

    /** The second half of `run_batch`: from the staged file to the removed staging directory. */
    method Publish(total: nat, name: string, output: seq<OutRow>, fault: Fault) returns (r: Result<Counts, string>)
      requires Valid() && process == Worker.Staged(total, name, output)
      requires staging.Some? && name in staging.value
      modifies this
      ensures Valid() && input == old(input)
      ensures fault == NoFault ==> r.Ok?
      ensures r.Err? ==> r.error == FAULT
      ensures process == if r.Ok? then CleanedUp else Raising(r.error)
      ensures r.Ok? ==> var promoted := FirstFile(StagedFiles(old(View())));
                        && View() == Dir(input, None, {}, Some(promoted), Whole(PayloadFor(total, promoted)), Absent)
                        && r.value == Counts(total, CompletedCount(promoted), FailedCount(promoted))
    {
      r := PromoteAndTally(total, name, output, fault);
      if r.Ok? {
        r := Mark(r.value, fault);
      }
    }

    /** From the counts to the removed staging directory: `_FAILED` goes before `_SUCCESS` comes. */
    method Mark(counts: Counts, fault: Fault) returns (r: Result<Counts, string>)
      requires Valid() && process == Tallied(counts.total, counts.completed, counts.failed)
      requires staging.Some?
      modifies this`failed, this`success, this`staging, this`others, this`process, this`history
      ensures Valid()
      ensures fault == NoFault ==> r.Ok?
      ensures r.Err? ==> r.error == FAULT
      ensures process == if r.Ok? then CleanedUp else Raising(r.error)
      ensures r.Ok? ==> r.value == counts && staging == None && others == {} && failed == Absent
                        && success == Whole(SuccessPayload(counts.total, Some(counts.completed), Some(counts.failed)))
    {
      var raised := Strikes(fault, AtUnlink);
      if raised {
        return Err(FAULT);
      }
      ClearFailureMarker(counts);
      r := Finish(counts, fault);
    }

    /** The last statements of `run_batch`: the marker, then the cleanup. */
    method Finish(counts: Counts, fault: Fault) returns (r: Result<Counts, string>)
      requires Valid() && process == FailureCleared(counts.total, counts.completed, counts.failed)
      requires staging.Some?
      modifies this`success, this`staging, this`others, this`process, this`history
      ensures Valid()
      ensures fault == NoFault ==> r.Ok?
      ensures r.Err? ==> r.error == FAULT
      ensures process == if r.Ok? then CleanedUp else Raising(r.error)
      ensures r.Ok? ==> r.value == counts && staging == None && others == {}
                        && success == Whole(SuccessPayload(counts.total, Some(counts.completed), Some(counts.failed)))
    {
      var raised := Strikes(fault, AtMarker);
      if raised {
        return Err(FAULT);
      }
      var marked := WriteSuccessMarker(counts, fault);
      if !marked {
        return Err(FAULT);
      }
      raised := Strikes(fault, AtCleanup);
      if raised {
        return Err(FAULT);
      }
      CleanUp();
      r := Ok(counts);
    }

    /** `run_batch`: undisturbed, it leaves the directory of a full run and returns its counts;
        disturbed, it raises where the fault strikes. */
    method RunBatch(plan: Plan, name: string, fault: Fault) returns (r: Result<Counts, string>)
      requires Valid() && process == NotStarted
      requires input.Some? && DecodeFile(input.value).Some? ==> ValidPlan(DecodeFile(input.value).value, plan)
      modifies this
      ensures Valid()
      ensures process == if r.Err? then Raising(r.error) else CleanedUp
      ensures fault == NoFault ==> (r.Ok? <==> old(input).Some? && DecodeFile(old(input).value).Some?)
      ensures r.Ok? ==> old(input).Some? && DecodeFile(old(input).value).Some?
      ensures r.Err? ==> r.error == LoadError(fault, old(input))
      ensures r.Ok? ==> View() == FullRun(old(View()), |DecodeFile(old(input).value).value|, name, Output(model, plan))
      ensures r.Ok? ==> success == Whole(SuccessPayload(r.value.total, Some(r.value.completed), Some(r.value.failed)))
    {
      var staged := Stage(plan, name, fault);
      if staged.Err? {
        return Err(staged.error);
      }
      assert name in staging.value.Keys;
      r := Publish(staged.value, name, Output(model, plan), fault);
    }

    /** `error_marker.write_text(...)` in `main`: opens the file, then writes it. */
    method WriteFailureMarker(error: string)
      requires Valid() && process == Raising(error)
      modifies this`failed, this`process, this`history
      ensures Valid() && process == Exited(1)
      ensures failed == Whole(Fields(Some(error)))
    {
      ghost var before := View();
      failed := Torn;
      Record(OpenFailure, FailureOpened(error), before);
      before := View();
      failed := Whole(Fields(Some(error)));
      Record(WriteFailure, Exited(1), before);
    }

    /** `run_batch` has returned its counts; `main` returns 0. */
    method ReturnZero() returns (code: int)
      requires Valid() && process == CleanedUp
      modifies this`process, this`history
      ensures Valid() && process == Exited(0) && code == 0
    {
      Record(Return, Exited(0), View());
      code := 0;
    }

    /** `main`: an exception of `run_batch` becomes a whole `_FAILED` marker and exit code 1. */
    method RunMain(plan: Plan, name: string, fault: Fault) returns (code: int)
      requires Valid() && process == NotStarted
      requires input.Some? && DecodeFile(input.value).Some? ==> ValidPlan(DecodeFile(input.value).value, plan)
      modifies this
      ensures Valid() && process == Exited(code)
      ensures code == 0 || code == 1
      ensures fault == NoFault && old(input).Some? && DecodeFile(old(input).value).Some? ==> code == 0
      ensures code == 0 ==> old(input).Some? && DecodeFile(old(input).value).Some?
      ensures code == 0 ==>
                View() == FullRun(old(View()), |DecodeFile(old(input).value).value|, name, Output(model, plan))
      ensures code == 1 ==> failed == Whole(Fields(Some(LoadError(fault, old(input)))))
    {
      var counts := RunBatch(plan, name, fault);
      if counts.Ok? {
        code := ReturnZero();
        return;
      }
      WriteFailureMarker(counts.error);
      code := 1;
    }
  }
}
