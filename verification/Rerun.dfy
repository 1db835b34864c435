/** Running a batch again over what earlier runs left: when a second run tells the API what a first one
    would have told it. */
module Rerun {
  import opened Wrappers
  import opened Text
  import opened Jsonl
  import opened Predictor
  import opened Permutations
  import opened Pipeline
  import opened Domain
  import opened Worker
  import opened FullRuns

  /** Two finished directories tell the API the same: equal rows up to order, equal markers. */
  ghost predicate SameOutcome(left: Dir, right: Dir) {
    && left.results.Some? && right.results.Some?
    && SameElements(left.results.value, right.results.value)
    && left.success == right.success && left.failed == right.failed
    && left.staging == right.staging && left.others == right.others
  }

  /** No staged file of an earlier run sorts before the new one, or the first of them is whole. */
  ghost predicate StagingIsSafe(model: Model, prompts: seq<string>, d: Dir, name: string) {
    var stale := StagedFiles(d);
    || (forall x | x in stale.Keys :: NameLeq(name, x))
    || (stale.Keys != {} && Complete(model, prompts, FirstFile(stale)))
  }

  lemma PromotedFile(stale: map<string, seq<OutRow>>, name: string, output: seq<OutRow>)
    ensures FirstWith(stale, name, output)
         == if forall x | x in stale.Keys :: NameLeq(name, x) then output else FirstFile(stale)
  {
    var files := stale[name := output];
    assert name in files.Keys;
    if forall x | x in stale.Keys :: NameLeq(name, x) {
      NameLeqTotal(name, name);
      FirstNameUnique(files.Keys, name);
    } else {
      var x :| x in stale.Keys && !NameLeq(name, x);
      var low := FirstName(stale.Keys);
      if !NameLeq(low, name) {
        NameLeqTotal(low, name);
        NameLeqTransitive(name, low, x);
        assert false;
      }
      FirstNameUnique(files.Keys, low);
      assert low != name;
    }
  }

  /** A re-run ends like a first run exactly when the staging directory it found was safe. */
  lemma RerunIff(model: Model, prompts: seq<string>, d: Dir, name: string, output: seq<OutRow>,
                 firstName: string, firstOutput: seq<OutRow>)
    requires Complete(model, prompts, output) && Complete(model, prompts, firstOutput)
    ensures SameOutcome(FullRun(d, |prompts|, name, output),
                        FullRun(FreshDir(prompts), |prompts|, firstName, firstOutput))
       <==> StagingIsSafe(model, prompts, d, name)
  {
    var stale := StagedFiles(d);
    PromotedFile(stale, name, output);
    PromotedFile(map[], firstName, firstOutput);
    var again := FullRun(d, |prompts|, name, output);
    var first := FullRun(FreshDir(prompts), |prompts|, firstName, firstOutput);
    assert first.results == Some(firstOutput);
    if StagingIsSafe(model, prompts, d, name) {
      FailedCountPermuted(again.results.value, firstOutput);
    }
  }

  lemma FreshIsReadable(prompts: seq<string>)
    ensures DecodeFile(FreshDir(prompts).input.value) == Some(NumberRows(prompts))
  {
    FileRoundTrip(prompts);
  }

  /** Two runs that exit with 0, one from `d` and one from the fresh directory: what each is a full run of. */
  lemma BothAreFullRuns(model: Model, prompts: seq<string>, d: Dir, second: seq<Action>, after: Dir,
                        first: seq<Action>, outcome: Dir)
    returns (name: string, output: seq<OutRow>, firstName: string, firstOutput: seq<OutRow>)
    requires d.input == Some(EncodeFile(prompts))
    requires RunsTo(model, d, second, after) && RunsTo(model, FreshDir(prompts), first, outcome)
    ensures Complete(model, prompts, output) && Complete(model, prompts, firstOutput)
    ensures after == FullRun(d, |prompts|, name, output)
    ensures outcome == FullRun(FreshDir(prompts), |prompts|, firstName, firstOutput)
  {
    FreshIsReadable(prompts);
    var plan, firstPlan;
    plan, name := ExitIsFullRun(model, NumberRows(prompts), d, second, after);
    firstPlan, firstName := ExitIsFullRun(model, NumberRows(prompts), FreshDir(prompts), first, outcome);
    output, firstOutput := Output(model, plan), Output(model, firstPlan);
    ScheduleIndependence(model, prompts, plan);
    ScheduleIndependence(model, prompts, firstPlan);
  }

  // ---- After a first run ----

  /** The first run has not begun its staged write, has closed the staged file, or has finished. */
  predicate NotMidWrite(p: Process) {
    (p.InRunBatch() && !p.Writing?) || p == Exited(0)
  }

  /** A first run that finishes, or stops anywhere in `run_batch` but inside its staged write, leaves
      a safe staging directory, whatever name the next run stages under. */
  lemma SafeToRerun(model: Model, prompts: seq<string>, c: Config, name: string, left: Dir)
    requires FirstRun(model, prompts, c)
    requires NotMidWrite(c.process) && left.staging == c.dir.staging
    ensures StagingIsSafe(model, prompts, left, name)
  {
    if c.process.Staged? {
      OnlyStagedFile(c.process.name, c.process.output);
    }
  }

  /** So every run that exits with 0 after such a first run, whatever marker that one left, ends as
      every undisturbed first run does, whatever their schedules and file names were. */
  lemma RerunMatchesFirstRun(model: Model, prompts: seq<string>, actions: seq<Action>, c: Config, left: Dir,
                             second: seq<Action>, after: Dir, first: seq<Action>, outcome: Dir)
    requires Exec(model, Config(NotStarted, FreshDir(prompts)), actions) == Some(c)
    requires NotMidWrite(c.process) && left.input == c.dir.input && left.staging == c.dir.staging
    requires RunsTo(model, left, second, after) && RunsTo(model, FreshDir(prompts), first, outcome)
    ensures SameOutcome(after, outcome)
  {
    CrashAtomicity(model, prompts, actions, c);
    var name, output, firstName, firstOutput := BothAreFullRuns(model, prompts, left, second, after, first, outcome);
    SafeToRerun(model, prompts, c, name, left);
    RerunIff(model, prompts, left, name, output, firstName, firstOutput);
  }

  /** A first run that stops during its staged write is safe to re-run exactly when every row
      was written or the next run's file sorts first: `run_batch` is not safe in general. */
  lemma RerunAfterTornWrite(model: Model, prompts: seq<string>, c: Config, name: string)
    requires FirstRun(model, prompts, c) && c.process.Writing?
    ensures StagingIsSafe(model, prompts, c.dir, name)
       <==> NameLeq(name, c.process.name) || c.process.written == |c.process.output|
  {
    var p := c.process;
    OnlyStagedFile(p.name, p.output[..p.written]);
    PrefixIsComplete(model, prompts, p.output, p.written);
  }

  lemma PrefixIsComplete(model: Model, prompts: seq<string>, output: seq<OutRow>, k: nat)
    requires Complete(model, prompts, output) && k <= |output|
    ensures |output| == |prompts|
    ensures Complete(model, prompts, output[..k]) <==> k == |output|
  {
    SameLength(Expected(model, prompts), output);
    if Complete(model, prompts, output[..k]) {
      SameLength(Expected(model, prompts), output[..k]);
    } else {
      assert output[..|output|] == output;
    }
  }

  /** One staged file, the first rows of a complete output. */
  ghost predicate HoldsPrefix(model: Model, prompts: seq<string>, files: map<string, seq<OutRow>>, name: string,
                              output: seq<OutRow>, k: nat) {
    Complete(model, prompts, output) && k <= |output| && files == map[name := output[..k]]
  }

  ghost predicate StagedPrefix(model: Model, prompts: seq<string>, d: Dir) {
    || StagedFiles(d) == map[]
    || exists name, output, k: nat :: HoldsPrefix(model, prompts, StagedFiles(d), name, output, k)
  }

  lemma StagedPrefixInRun(model: Model, prompts: seq<string>, c: Config)
    requires FirstRun(model, prompts, c) && (c.process.InRunBatch() || c.process == Exited(0))
    ensures StagedPrefix(model, prompts, c.dir)
  {
    var p := c.process;
    if p.Writing? {
      assert HoldsPrefix(model, prompts, StagedFiles(c.dir), p.name, p.output, p.written);
    } else if p.Staged? {
      assert p.output[..|p.output|] == p.output;
      assert HoldsPrefix(model, prompts, StagedFiles(c.dir), p.name, p.output, |p.output|);
    }
  }

  lemma StoppingKeepsStaging(model: Model, c: Config, a: Action, c': Config)
    requires Step(model, c, a) == Some(c')
    requires !c'.process.InRunBatch() && c'.process != Exited(0)
    ensures c'.dir.staging == c.dir.staging
  {
  }

  /** Wherever a first run is or ended, its staging directory holds at most one file, the first
      rows of a complete output. */
  lemma {:induction false} StagedIsPrefix(model: Model, prompts: seq<string>, actions: seq<Action>, c: Config)
    requires Exec(model, Config(NotStarted, FreshDir(prompts)), actions) == Some(c)
    ensures StagedPrefix(model, prompts, c.dir)
  {
    CrashAtomicity(model, prompts, actions, c);
    if c.process.InRunBatch() || c.process == Exited(0) {
      StagedPrefixInRun(model, prompts, c);
    } else {
      var last := |actions| - 1;
      var before := Exec(model, Config(NotStarted, FreshDir(prompts)), actions[..last]).value;
      StagedIsPrefix(model, prompts, actions[..last], before);
      StoppingKeepsStaging(model, before, actions[last], c);
    }
  }

  // ---- After any number of runs ----

  /** The directory after runs that start one after the other where the last one stopped, each of them
      ending anywhere; None if some action was not enabled in its turn. */
  ghost function ChainDir(model: Model, d: Dir, runs: seq<seq<Action>>): Option<Dir> {
    if runs == [] then Some(d)
    else
      var last := |runs| - 1;
      var before := ChainDir(model, d, runs[..last]);
      if before.None? then None
      else
        var end := Exec(model, Config(NotStarted, before.value), runs[last]);
        if end.None? then None else Some(end.value.dir)
  }

  ghost predicate PrefixOfComplete(model: Model, prompts: seq<string>, file: seq<OutRow>) {
    exists output :: Complete(model, prompts, output) && file <= output
  }

  ghost predicate AllPrefixes(model: Model, prompts: seq<string>, files: map<string, seq<OutRow>>) {
    forall x | x in files :: PrefixOfComplete(model, prompts, files[x])
  }

  /** What every run keeps of the directory, wherever it stands, if it found it so. */
  ghost predicate Sound(model: Model, prompts: seq<string>, c: Config) {
    var p, d := c.process, c.dir;
    && d.input == Some(EncodeFile(prompts)) && AllPrefixes(model, prompts, StagedFiles(d))
    && (p.Loaded? || p.StagingReady? ==> p.rows == NumberRows(prompts))
    && (p.Writing? ==> Complete(model, prompts, p.output))
  }

  lemma TakenIsPrefix(model: Model, prompts: seq<string>, output: seq<OutRow>, k: nat)
    requires Complete(model, prompts, output) && k <= |output|
    ensures PrefixOfComplete(model, prompts, output[..k])
  {
    assert output[..k] <= output;
  }

  lemma OneMorePrefix(model: Model, prompts: seq<string>, files: map<string, seq<OutRow>>, name: string,
                      output: seq<OutRow>, k: nat)
    requires AllPrefixes(model, prompts, files) && Complete(model, prompts, output) && k <= |output|
    ensures AllPrefixes(model, prompts, files[name := output[..k]])
  {
    TakenIsPrefix(model, prompts, output, k);
    var more := files[name := output[..k]];
    forall x | x in more ensures PrefixOfComplete(model, prompts, more[x]) {
      if x != name { assert more[x] == files[x]; }
    }
  }

  lemma SoundPrepares(model: Model, prompts: seq<string>, c: Config, a: Action, c': Config)
    requires Sound(model, prompts, c) && PrepareAction(a) && PrepareStep(model, c, a) == Some(c')
    ensures Sound(model, prompts, c')
  {
    if a.LoadInput? {
      FileRoundTrip(prompts);
    } else if a.RunPipeline? {
      ScheduleIndependence(model, prompts, a.plan);
      OneMorePrefix(model, prompts, StagedFiles(c.dir), a.name, Output(model, a.plan), 0);
      assert Output(model, a.plan)[..0] == [];
    }
  }

  lemma SoundWrites(model: Model, prompts: seq<string>, c: Config, c': Config)
    requires Sound(model, prompts, c) && StageStep(c, WriteRow) == Some(c')
    ensures Sound(model, prompts, c')
  {
    var p := c.process;
    OneMorePrefix(model, prompts, StagedFiles(c.dir), p.name, p.output, p.written + 1);
  }

  lemma SoundStages(model: Model, prompts: seq<string>, c: Config, a: Action, c': Config)
    requires Sound(model, prompts, c) && StageAction(a) && StageStep(c, a) == Some(c')
    ensures Sound(model, prompts, c')
  {
    if a.WriteRow? {
      SoundWrites(model, prompts, c, c');
    } else if a.Promote? {
      assert forall x | x in StagedFiles(c'.dir) :: x in StagedFiles(c.dir) && StagedFiles(c'.dir)[x] == StagedFiles(c.dir)[x];
    } else {
      assert c'.dir.staging == c.dir.staging;
    }
  }

  lemma SoundElsewhere(model: Model, prompts: seq<string>, c: Config, a: Action, c': Config)
    requires Sound(model, prompts, c) && Step(model, c, a) == Some(c') && !PrepareAction(a) && !StageAction(a)
    ensures Sound(model, prompts, c')
  {
    if MarkAction(a) {
      assert MarkStep(c, a) == Some(c');
    } else if EndAction(a) {
      assert EndStep(c, a) == Some(c');
    } else {
      assert StopStep(c, a) == Some(c');
    }
  }

  lemma {:induction false} RunIsSound(model: Model, prompts: seq<string>, d: Dir, actions: seq<Action>, c: Config)
    requires Sound(model, prompts, Config(NotStarted, d))
    requires Exec(model, Config(NotStarted, d), actions) == Some(c)
    ensures Sound(model, prompts, c)
  {
    if actions != [] {
      var last, a := |actions| - 1, actions[|actions| - 1];
      var before := Exec(model, Config(NotStarted, d), actions[..last]).value;
      RunIsSound(model, prompts, d, actions[..last], before);
      if PrepareAction(a) {
        SoundPrepares(model, prompts, before, a, c);
      } else if StageAction(a) {
        SoundStages(model, prompts, before, a, c);
      } else {
        SoundElsewhere(model, prompts, before, a, c);
      }
    }
  }

  /** After any number of runs the input is as submitted, and every staged file holds the first rows of a
      complete output. */
  lemma {:induction false} ChainIsSound(model: Model, prompts: seq<string>, runs: seq<seq<Action>>, d: Dir)
    requires ChainDir(model, FreshDir(prompts), runs) == Some(d)
    ensures d.input == Some(EncodeFile(prompts)) && AllPrefixes(model, prompts, StagedFiles(d))
  {
    if runs != [] {
      var last := |runs| - 1;
      var before := ChainDir(model, FreshDir(prompts), runs[..last]).value;
      ChainIsSound(model, prompts, runs[..last], before);
      var c := Exec(model, Config(NotStarted, before), runs[last]).value;
      RunIsSound(model, prompts, before, runs[last], c);
    }
  }

  // ---- When any re-run is safe ----

  lemma LongerNameIsLater(name: string)
    ensures !NameLeq(name + ['a'], name)
  {
    if name != [] {
      LongerNameIsLater(name[1..]);
      assert (name + ['a'])[1..] == name[1..] + ['a'];
    }
  }

  /** Every name for the next staged file is safe exactly when there is no stale file or the first
      stale one is complete. */
  lemma SafeForAnyNameIff(model: Model, prompts: seq<string>, d: Dir)
    ensures (forall name :: StagingIsSafe(model, prompts, d, name))
       <==> StagedFiles(d) == map[] || Complete(model, prompts, FirstFile(StagedFiles(d)))
  {
    var stale := StagedFiles(d);
    if stale != map[] {
      var low := FirstName(stale.Keys);
      LongerNameIsLater(low);
      assert !(forall x | x in stale.Keys :: NameLeq(low + ['a'], x));
      if forall name :: StagingIsSafe(model, prompts, d, name) {
        assert StagingIsSafe(model, prompts, d, low + ['a']);
      }
    }
  }

  /** A condition to look at before running a batch again: no staged file, or one row a prompt in it. */
  predicate NothingTorn(prompts: seq<string>, d: Dir) {
    StagedFiles(d) == map[] || |FirstFile(StagedFiles(d))| == |prompts|
  }

  lemma WholeOrTorn(model: Model, prompts: seq<string>, file: seq<OutRow>)
    requires PrefixOfComplete(model, prompts, file)
    ensures Complete(model, prompts, file) <==> |file| == |prompts|
  {
    var output :| Complete(model, prompts, output) && file <= output;
    PrefixIsComplete(model, prompts, output, |file|);
    assert output[..|file|] == file;
  }

  /** After any number of runs, however each ended, running again is safe whatever Ray will name its file
      exactly under that condition. */
  lemma RerunSafeIff(model: Model, prompts: seq<string>, runs: seq<seq<Action>>, d: Dir)
    requires ChainDir(model, FreshDir(prompts), runs) == Some(d)
    ensures (forall name :: StagingIsSafe(model, prompts, d, name)) <==> NothingTorn(prompts, d)
  {
    ChainIsSound(model, prompts, runs, d);
    SafeForAnyNameIff(model, prompts, d);
    if StagedFiles(d) != map[] {
      WholeOrTorn(model, prompts, FirstFile(StagedFiles(d)));
    }
  }

  /** Every run from `d` that exits with 0 ends as every first run that does. */
  ghost predicate AnyRerunMatches(model: Model, prompts: seq<string>, d: Dir) {
    forall second, after, first, outcome |
      RunsTo(model, d, second, after) && RunsTo(model, FreshDir(prompts), first, outcome) :: SameOutcome(after, outcome)
  }

  lemma SafeRerunsMatch(model: Model, prompts: seq<string>, d: Dir)
    requires d.input == Some(EncodeFile(prompts)) && forall name :: StagingIsSafe(model, prompts, d, name)
    ensures AnyRerunMatches(model, prompts, d)
  {
    forall second, after, first, outcome |
      RunsTo(model, d, second, after) && RunsTo(model, FreshDir(prompts), first, outcome)
      ensures SameOutcome(after, outcome)
    {
      var name, output, firstName, firstOutput := BothAreFullRuns(model, prompts, d, second, after, first, outcome);
      RerunIff(model, prompts, d, name, output, firstName, firstOutput);
    }
  }

  /** Under a name that is not safe, any schedule gives a run from `d` that exits with 0 and tells the API
      something else than a first run does. */
  lemma UnsafeRerunExists(model: Model, prompts: seq<string>, d: Dir, name: string, plan: Plan)
    returns (second: seq<Action>, after: Dir, first: seq<Action>, outcome: Dir)
    requires d.input == Some(EncodeFile(prompts)) && ValidPlan(NumberRows(prompts), plan)
    requires !StagingIsSafe(model, prompts, d, name)
    ensures RunsTo(model, d, second, after) && RunsTo(model, FreshDir(prompts), first, outcome)
    ensures !SameOutcome(after, outcome)
    ensures after == FullRun(d, |prompts|, name, Output(model, plan))
  {
    var rows, output := NumberRows(prompts), Output(model, plan);
    FreshIsReadable(prompts);
    ScheduleIndependence(model, prompts, plan);
    after, outcome := FullRun(d, |prompts|, name, output), FullRun(FreshDir(prompts), |prompts|, name, output);
    second := FullRunExists(model, rows, d, plan, name);
    first := FullRunExists(model, rows, FreshDir(prompts), plan, name);
    RerunIff(model, prompts, d, name, output, name, output);
  }

  /** `run_batch` may be run again after any number of runs, however each of them ended, exactly when they
      left nothing torn in the staging directory: then every run that exits with 0 matches every first run
      that does, and otherwise some run does not. */
  lemma AnyRerunMatchesIff(model: Model, prompts: seq<string>, runs: seq<seq<Action>>, d: Dir)
    requires ChainDir(model, FreshDir(prompts), runs) == Some(d)
    ensures AnyRerunMatches(model, prompts, d) <==> NothingTorn(prompts, d)
  {
    ChainIsSound(model, prompts, runs, d);
    RerunSafeIff(model, prompts, runs, d);
    if NothingTorn(prompts, d) {
      SafeRerunsMatch(model, prompts, d);
    } else {
      var name :| !StagingIsSafe(model, prompts, d, name);
      var plan := PlanExists(NumberRows(prompts));
      var second, after, first, outcome := UnsafeRerunExists(model, prompts, d, name, plan);
    }
  }

  // ---- A re-run that publishes torn rows ----

  const EARLIER := "a.json"
  const LATER := "b.json"

  /** `run_batch` is not safe to re-run: whatever was submitted, a first run may stop before its staged file
      is complete, and a second run under a later name exits with 0 and publishes what the first left, here
      nothing at all. */
  lemma RerunMayPublishTornRows(model: Model, prompts: seq<string>)
    returns (crashed: seq<Action>, c: Config, second: seq<Action>, after: Dir, first: seq<Action>, outcome: Dir)
    requires prompts != []
    ensures Exec(model, Config(NotStarted, FreshDir(prompts)), crashed) == Some(c)
    ensures RunsTo(model, c.dir, second, after) && after.results == Some([])
    ensures RunsTo(model, FreshDir(prompts), first, outcome) && !SameOutcome(after, outcome)
  {
    var plan := PlanExists(NumberRows(prompts));
    var output := Output(model, plan);
    FreshIsReadable(prompts);
    ScheduleIndependence(model, prompts, plan);
    crashed := StagingRuns(model, FreshDir(prompts), NumberRows(prompts), plan, EARLIER, 0);
    c := Staging(FreshDir(prompts), |prompts|, EARLIER, output, 0);
    NothingStaged(FreshDir(prompts), |prompts|, output);
    TornFilePromoted(model, prompts, output, c.dir);
    second, after, first, outcome := UnsafeRerunExists(model, prompts, c.dir, LATER, plan);
  }

  lemma NothingStaged(d: Dir, total: nat, output: seq<OutRow>)
    requires d.staging == None
    ensures StagedFiles(Staging(d, total, EARLIER, output, 0).dir) == map[EARLIER := []]
  {
    assert output[..0] == [];
  }

  lemma TornFilePromoted(model: Model, prompts: seq<string>, output: seq<OutRow>, d: Dir)
    requires prompts != [] && StagedFiles(d) == map[EARLIER := []]
    ensures !StagingIsSafe(model, prompts, d, LATER)
    ensures FirstWith(StagedFiles(d), LATER, output) == []
  {
    OnlyStagedFile(EARLIER, []);
    PromotedFile(map[EARLIER := []], LATER, output);
    assert !NameLeq(LATER, EARLIER);
    var none: seq<OutRow> := [];
    assert none <= Expected(model, prompts) && Complete(model, prompts, Expected(model, prompts));
    assert PrefixOfComplete(model, prompts, none);
    WholeOrTorn(model, prompts, none);
  }
}
