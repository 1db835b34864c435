# Batch lifecycle: a Dafny model with proofs

The system accepts a list of prompts over HTTP, stores them on a shared volume, submits a Ray job that runs a
language model over them, and serves the results as newline-delimited JSON. Four parties work on a row table and on
one directory per batch, and nothing locks between them:

- the POST handler writes `input.jsonl`, commits a queued row, submits the job, then attaches the job id or marks the
  row failed;
- one background poller lists the active rows, asks Ray about each, reads a marker file and commits an update;
- Ray moves a job from pending over running to one of three final states;
- the worker stages its output, renames it, counts it, clears `_FAILED`, writes `_SUCCESS` and cleans up, or writes
  `_FAILED` on an exception.

The project models all four, at the granularity of single file operations, database sessions and counter increments,
over unboundedly many batches, jobs and readers, with API restarts, lost submissions and workers killed anywhere. Its
main theorem, `Lifecycle.ResultsAreRight`, says what a client that got a 200 from the results endpoint holds in its
hands.

## How the project is organised

| file | content |
|---|---|
| `Wrappers`, `Permutations`, `Text` | option and result types; sequences equal up to order; decimal numerals and file-name order |
| `Jsonl` | files of one JSON object a line: writer, reader, round trip; the text of `input.jsonl` |
| `Predictor` | the actor's row-isolating loop, counting failed rows |
| `Results` | the text of `results.jsonl`: the worker's tally, the lines the API yields, what a client reads |
| `Pipeline` | blocks, batches, schedules; the distributed map against the sequential one |
| `Domain` | rows, statuses, markers, directories |
| `Worker` | the worker as a step machine: crash atomicity |
| `FullRuns` | the runs of that machine that exit with 0: what they leave, and that they exist |
| `Rerun` | running again after any number of runs |
| `WorkerProgram` | `run_batch` and `main` as an imperative class, each method a run of that machine |
| `Table` | the row updates as functions; what one sweep does to the table |
| `Api` | `create_batch`, the results handler, the row helpers and the sweep as an imperative class |
| `Protocol` | the whole system as an interleaved step machine |
| `Invariant`, `Preservation` | what holds in every reachable state, and why each step keeps it |
| `Lifecycle` | safety over whole runs, up to the results endpoint |
| `Metrics` | what the three batch counters count |
| `SweepRuns` | every undisturbed sweep of the machine is the sweep of `Table` and `Api`, and which rows it settles |
| `Settling` | which rows a sweep settles while all other parties go on |
| `Reachability` | runs that exist: a served batch, a stuck batch, two pollers breaking the lifecycle |

`dafny verify dfyconfig.toml` verifies all of it.

## Assumptions

- A POST gets an id no other POST has, and Ray a job id no other job has (`Protocol.HandlerStep`, `Step`).
- Ray's raw status is one of the five known values and only moves forward; a job is reported SUCCEEDED only after its
  entrypoint returned 0, and in a final state only after its process ended, or without ever starting it
  (`Protocol.MayMove`). `MapStatus` itself also treats unknown values as the code does.
- There is one poller. `k8s/api/deployment.yaml:15` and `:55` ask for one replica and one worker, but the rolling
  update at `:16-20` may overlap two pods. `Reachability.TwoPollersBreakStickiness` shows that the assumption is needed.
- A database session is one atomic step, and so is reading one marker file.
- What a batch's model and token limit make of a prompt is a deterministic function, to a generation or an exception,
  otherwise arbitrary, and a different one for each batch (`Protocol.Models`). Ray Data may use any blocks, batches, actors and completion order that `Pipeline.ValidPlan` allows, and reads `input.jsonl` to
  the strings that were written.
- The text of `results.jsonl` is one object of the shape in `docs/ARCHITECTURE.md:171-181` a line, with the spacing and
  escapes of `json.dumps`; Ray's own writer is not part of this model.
- The clock does not run backwards.

## Where the code and its documentation disagree

- `docs/ARCHITECTURE.md:169` promises results in input order. The code guarantees it exactly for batches of at most one
  prompt (`Pipeline.OrderGuaranteedIff`); for any two or more, `Pipeline.OrderIsNotEnforced` gives a schedule of the
  code's own blocks and batches without it. `Pipeline.SortingRestoresOrder` says how a client gets the order back.
- `inference/jobs/batch_infer.py:213-215` calls `run_batch` safe to re-run. It is, after any number of runs that ended in
  any way, exactly if the staging directory then holds no `*.json` file or the first of them has one row a prompt
  (`Rerun.AnyRerunMatchesIff`). `Rerun.RerunMayPublishTornRows` gives, for any prompts, two runs the second of which
  exits with 0 and publishes an empty result file.
- `docs/ARCHITECTURE.md:183` says that a row with an error has a null response. It has both exactly if a statement after
  the response's assignment raises (`Predictor.OneOfResponseAndError`).
- `docs/ARCHITECTURE.md:34` puts the row before the input file; the code writes the file first, so that no row is ever
  without its input (`Lifecycle.RowHasInput`).
- `docs/ARCHITECTURE.md:208` says twice as many blocks as workers; the code computes the number of `:209`, which
  `Pipeline.EvenBlocks` is about.
- A worker killed while it writes `_FAILED` leaves a file that is not JSON. `_poll_one` then raises on every sweep, and
  the row stays active for good: `Lifecycle.MarkerReads` gives the exact condition,
  `Lifecycle.TornFailureIsNeverReported` the consequence, `Reachability.TornFailureHappens` a run that gets there.

## Model

| member | source | states |
|---|---|---|
| `Lifecycle.ResultsAreRight` | api/src/routes/batches.py:241-299 | In every reachable state of any interleaving, an answered results request is never the 500 for a missing file, and a 200 body has one row a submitted prompt, ids "0" to "n-1" once each, each row with that prompt and with the response, finish reason, token counts and error that its attempt calls for; the batch row counts its rows with and without error and they add up to the input count; a client that cuts the body into lines decodes exactly these rows |
| `Preservation.ReachableOk` | api/src/routes/batches.py:119-463 | Every run of handlers, poller, readers, Ray and workers, restarts included, stays within the invariant that ties row, job, process and files of a batch together |
| `Preservation.StepKeepsInv` | api/src/routes/batches.py:119-463 | Each single step of each party keeps that invariant |
| `Lifecycle.AnswersAgree` | api/src/routes/batches.py:241-299 | Two 200 answers for one batch, at any two moments of any run, carry the same body |
| `Lifecycle.LookUpDecides` | api/src/routes/batches.py:259-276 | Whatever happens between a results request's lookup and its answer, it is 404 exactly if there was no row, 409 with the row's status exactly if that was not completed, 200 exactly if it was |
| `Lifecycle.FilesStay` | inference/jobs/batch_infer.py:257-302 | Once the job of an attached row has ended, its directory is the same in every later state |
| `Lifecycle.RunAdvances` | api/src/routes/batches.py:303-446 | From any reachable state, along any run, a row keeps its input count, creation time and job id, never moves backwards, and never changes once terminal, although no update tests the old status |
| `Lifecycle.StepAdvances` | api/src/routes/batches.py:401-446 | The same of each single step |
| `Lifecycle.RowChangesAre` | api/src/routes/batches.py:144-154 | Every change of the table in any run is one of four, column by column: a blank queued row with the number of prompts and the time; the id of its own job; a refusal that blames the submission, with the time; or what some answer of Ray's and the files of the batch call for |
| `Lifecycle.TerminalIsFinal` | api/src/db.py:157-160 | A row that reached a terminal status is the identical row in every later state |
| `Lifecycle.AtMostTwoChanges` | api/src/routes/batches.py:333-446 | In any run the status of a row changes at most twice; its rank bounds the number of changes |
| `Lifecycle.RowFollowsItsJob` | api/src/routes/batches.py:368-398 | An attached row names a job of its own batch, never ranks above it, and once terminal equals its final status (completed for SUCCEEDED, failed for FAILED, cancelled for STOPPED), although asking Ray and writing the row are separate steps; an in_progress row has a job that left PENDING; no two rows share a job |
| `Lifecycle.JobHasRowAndInput` | api/src/routes/batches.py:135-169 | Every job Ray runs has a committed row with the right input count and an input file that decodes to every submitted prompt, and no batch has two jobs |
| `Lifecycle.RowHasInput` | api/src/routes/batches.py:135-154 | In every reachable state each row's input file is complete and decodes to its prompts |
| `Lifecycle.WorkerFindsItsInput` | inference/jobs/batch_infer.py:223-233 | In every reachable state, a worker that loads its input gets exactly the submitted prompts; the missing-input error is unreachable |
| `Lifecycle.RowsAreWellFormed` | api/src/routes/batches.py:303-319 | In every reachable state completed_at is set exactly on terminal rows and is not before created_at, error is set exactly on failed rows, and the counts are zero unless the row is completed and then add up to the input count |
| `Lifecycle.FailureIsShown` | api/src/routes/batches.py:393-396 | In every reachable state the error of an attached failed row is the one in its directory's `_FAILED`, or "Ray job failed (no marker)" if there is none; that of another failed row starts with "Ray submission failed: " |
| `Lifecycle.RowNeverVanishes` | api/src/routes/batches.py:186-197 | The 500 for a vanished row cannot happen |
| `Lifecycle.MarkerReads` | api/src/routes/batches.py:381-396 | A poller that heard completed finds a whole `_SUCCESS` and a result file, so the fallback is never taken; the read raises exactly when the job failed and its worker was killed while writing `_FAILED` |
| `Lifecycle.TornFailureIsNeverReported` | api/src/storage.py:121-127 | A batch with a torn `_FAILED` of a failed job keeps an active row in every later state |
| `Metrics.MetricsBalance` | api/src/routes/batches.py:165-182 | In every run each counter plus what restarts forgot equals the rows it is about, corrected exactly by handlers between two writes and by lost commits |
| `Metrics.StepBalanced` | api/src/routes/batches.py:417-446 | Each step of each party keeps that account |
| `Metrics.CountersAreExact` | api/src/observability.py:63-80 | Without restarts and losses: terminal equals the terminal rows with a job id, submitted plus handlers before their increment equals the rows with a job id, failures equal the rows failed without a job plus handlers before their mark |
| `SweepRuns.UndisturbedSweep` | api/src/routes/batches.py:333-365 | From any reachable state between sweeps, listing the active rows in any order, every run of the poller's steps back to sleep ends in exactly the table Sweep computes and changes nothing else but a counter |
| `SweepRuns.UndisturbedSweepWrites` | api/src/ray_client.py:89-107 | After every such run an active attached row shows what Ray's answer and the markers call for, queued for a pending job and in_progress for a running one; every other row is as it was |
| `SweepRuns.SweepExists` | api/src/routes/batches.py:349-365 | The poller is never stuck: such a run exists for every order |
| `SweepRuns.OneSweepSettles` | api/src/routes/batches.py:333-398 | From any reachable state in which all jobs have ended, every undisturbed sweep makes every row terminal, except exactly those without a job id and those with a torn `_FAILED` |
| `Settling.AskedAfterEndIsSettled` | api/src/routes/batches.py:356-398 | Among all other parties' steps: a listed row whose job has ended before the poller asks about it is, once the poller is past it, terminal exactly if that job did not fail with a torn `_FAILED`, and then has its job's final status, unless the API stopped, that poll gave up or its commit was lost |
| `Settling.DueUntilSettled` | api/src/routes/batches.py:356-398 | At every moment on the way such a row is still due or already settled |
| `Table.SweepIdempotent` | api/src/routes/batches.py:333-446 | Repeating a sweep against the same answers and files changes nothing |
| `Table.SweepConverges` | api/src/routes/batches.py:356-398 | Once every attached job has ended and reads and commits succeed, one sweep leaves no active row with a job id |
| `Table.SweepOneMore` | api/src/routes/batches.py:356-365 | Polling a further row changes that row alone, whichever rows came before |
| `Table.PollTwice` | api/src/routes/batches.py:368-398 | Polling a row again against the same answer changes nothing, and a poll never touches the job id |
| `Table.PollWritesThat` | api/src/routes/batches.py:368-398 | A poll writes, column by column and for each answer and marker, exactly the status, counts, error and clock reading they call for, or nothing where the marker is torn, Ray does not answer or the commit fails |
| `Table.DecideTargets` | api/src/routes/batches.py:374-398 | A poll's update targets exactly the mapped status of Ray's answer, and the fallback without `_SUCCESS` keeps the counts adding up to the input count |
| `Reachability.ResultsCanBeServed` | api/src/routes/batches.py:119-299 | For any prompts some run from the empty system ends with the plain loop's rows served in submission order |
| `Reachability.PostRuns` | api/src/routes/batches.py:131-182 | In any state a POST under a fresh id can run to an attached queued row with the complete input file |
| `Reachability.WorkerFinishes` | inference/jobs/batch_infer.py:209-309 | A first run can always go through to exit code 0, for any valid schedule and file name |
| `Reachability.TornFailureHappens` | inference/jobs/batch_infer.py:332-348 | The state of a torn `_FAILED` with an active row is reachable |
| `Reachability.TwoPollersBreakStickiness` | k8s/api/deployment.yaml:15-20 | With a second poller, a run takes a failed row back to queued |
| `Worker.CrashAtomicity` | inference/jobs/batch_infer.py:257-302 | However far a first run gets, the result file is absent or complete, and a written `_SUCCESS` counts exactly that file |
| `Worker.FirstRunStep` | inference/jobs/batch_infer.py:209-348 | Each file operation of a first run keeps that |
| `Worker.InputIsNeverMissing` | inference/jobs/batch_infer.py:223-232 | A first run loads the submitted prompts, never an error |
| `FullRuns.ExitIsFullRun` | inference/jobs/batch_infer.py:209-309 | Whatever directory it starts in, every run that exits with 0 leaves exactly the full run of some valid schedule under some file name: first file by name promoted, its counts in `_SUCCESS`, `_FAILED` and staging gone |
| `FullRuns.FullRunExists` | inference/jobs/batch_infer.py:209-309 | From any directory with a readable input, any valid schedule under any name has a run that exits with 0 and leaves that |
| `FullRuns.RunIsSince` | inference/jobs/batch_infer.py:209-348 | At every moment of any run, what it has changed of the directory it found, by where it is |
| `Rerun.AnyRerunMatchesIff` | inference/jobs/batch_infer.py:213-215 | After any number of runs, each ended in any way, every run that exits with 0 ends as every first run that does, exactly if the staging directory holds no `*.json` file or its first one has one row a prompt |
| `Rerun.RerunMayPublishTornRows` | inference/jobs/batch_infer.py:213-215 | For any prompts, the actions of a first run that stops in its staged write and of a second run that exits with 0 and publishes no rows, unlike an undisturbed first run |
| `Rerun.RerunSafeIff` | inference/jobs/batch_infer.py:257-267 | After any number of runs no name of the next file lets a torn file be promoted, exactly under that condition |
| `Rerun.ChainIsSound` | inference/jobs/batch_infer.py:257-267 | After any number of runs the input is as submitted and every staged file holds the first rows of a complete output |
| `Rerun.StagedIsPrefix` | inference/jobs/batch_infer.py:257-267 | Wherever a first run is or ended, its staging directory holds at most one file, the first rows of a complete output |
| `Rerun.RerunMatchesFirstRun` | inference/jobs/batch_infer.py:257-307 | After a first run that finished, or stopped anywhere but inside its staged write, every run that exits with 0 ends as every undisturbed first run |
| `Rerun.SafeToRerun` | inference/jobs/batch_infer.py:257-307 | Such an end leaves a safe staging directory for any next file name |
| `Rerun.RerunAfterTornWrite` | inference/jobs/batch_infer.py:261-267 | After a stop inside the staged write, a re-run is safe exactly when all rows were written or the next file name sorts first |
| `Rerun.RerunIff` | inference/jobs/batch_infer.py:213-215 | For a given next name, the full run ends with the rows, markers and staging of a first one exactly when no staged file left over sorts before the new one, or the first of them is complete |
| `Rerun.PromotedFile` | inference/jobs/batch_infer.py:264-267 | Which file is promoted: the new one exactly when no stale name sorts before it, otherwise the first stale one |
| `WorkerProgram.BatchDirectory.ReadInput` | inference/jobs/batch_infer.py:223-233 | Raises exactly on a fault, a missing or a malformed input; otherwise loads the decoded rows |
| `WorkerProgram.BatchDirectory.MakeStagingDirectory` | inference/jobs/batch_infer.py:257-258 | The staging directory exists and keeps the files it held |
| `WorkerProgram.BatchDirectory.WriteStaged` | inference/jobs/batch_infer.py:261 | The one new file holds the gathered rows, or on a fault the rows written so far; other staged files are untouched |
| `WorkerProgram.BatchDirectory.FinishStaged` | inference/jobs/batch_infer.py:261 | The same from the opened file on, as a run of single row writes |
| `WorkerProgram.BatchDirectory.PromoteFirst` | inference/jobs/batch_infer.py:264-267 | results.jsonl becomes the staged file that is first in code point order; raises exactly if there is none |
| `WorkerProgram.BatchDirectory.Tally` | inference/jobs/batch_infer.py:269-281 | Tallying the text of the promoted file gives the numbers of its rows with and without a true error |
| `WorkerProgram.BatchDirectory.WriteFailureMarker` | inference/jobs/batch_infer.py:338-348 | `_FAILED` is opened, then holds the exception's text; the exit code is 1 |
| `WorkerProgram.BatchDirectory.ClearFailureMarker` | inference/jobs/batch_infer.py:289-290 | `_FAILED` is absent afterwards |
| `WorkerProgram.BatchDirectory.WriteSuccessMarker` | inference/jobs/batch_infer.py:291-302 | `_SUCCESS` is whole with the counts, or torn when the write is interrupted |
| `WorkerProgram.BatchDirectory.CleanUp` | inference/jobs/batch_infer.py:305-307 | Every file of the staging directory, of either kind, is unlinked, then the directory is gone |
| `WorkerProgram.BatchDirectory.RunBatch` | inference/jobs/batch_infer.py:209-309 | Undisturbed, leaves exactly the directory of a full run and returns the counts of its marker; in every case its file operations are a run of the worker machine |
| `WorkerProgram.BatchDirectory.RunMain` | inference/jobs/batch_infer.py:312-348 | Exit code 0 exactly with the directory of a full run, exit code 1 with a whole `_FAILED` that holds the exception's text, each as a run of the worker machine |
| `Pipeline.ScheduleIndependence` | inference/jobs/batch_infer.py:232-261 | Any blocks, any batches of at most 8, any actors and any completion order give a permutation of the sequential map's rows |
| `Pipeline.CompleteMeans` | inference/jobs/batch_infer.py:197-205 | Such an output has one row a prompt, each id once, each row the answer to the prompt its id names |
| `Pipeline.SortingRestoresOrder` | api/src/storage.py:54-56 | Sorting the output by the numeric value of id gives exactly the sequential output |
| `Pipeline.OrderGuaranteedIff` | docs/ARCHITECTURE.md:169 | All valid schedules, or all of the code's own blocks and batches, give the submission order exactly if there is at most one prompt |
| `Pipeline.InOrderIff` | inference/jobs/batch_infer.py:242-261 | One schedule's output is in submission order exactly when its batches are gathered in it |
| `Pipeline.OrderIsNotEnforced` | inference/jobs/batch_infer.py:235-261 | For any two or more prompts, a schedule with an even split into the code's number of blocks and batches of 8 whose output is not in submission order |
| `Pipeline.PlanExists` | inference/jobs/batch_infer.py:235-247 | Every list of rows has such a schedule that keeps its order, and it is valid |
| `Pipeline.EvenPlanIsValid` | inference/jobs/batch_infer.py:235-247 | An even split, cut into full batches up to the last of each block and gathered in any order, loses and repeats no row |
| `Pipeline.FailedCountPermuted` | inference/jobs/batch_infer.py:271-281 | The counts do not depend on the order of the rows |
| `Pipeline.EvenBlocks` | inference/jobs/batch_infer.py:233-247 | At least two blocks; an even split never puts more than 24 rows, three calls, in a block, and from 32 rows on never fewer than 16 |
| `Pipeline.BlockCountIs` | inference/jobs/batch_infer.py:235 | At least two blocks, and a larger number exactly as long as every block can have 16 rows |
| `Pipeline.EvenBlocksCoverAll` | inference/jobs/batch_infer.py:235 | The sizes of an even split add up to the total |
| `Predictor.Call` | inference/jobs/batch_infer.py:130-205 | All seven columns keep length n, ids and prompts are copied, and entry i of each result column is what prompt i alone calls for: the text, reason and token counts of a whole generation, or what was stored before the exception, and its text |
| `Predictor.TryRow` | inference/jobs/batch_infer.py:152-193 | The same of one row: response, reason, token counts and error for each statement of its block that may raise, and for none |
| `Predictor.OneOfResponseAndError` | inference/jobs/batch_infer.py:183-192 | A row has response or error, and both exactly when a statement after the response raises |
| `Predictor.PredictConcat` | inference/jobs/batch_infer.py:151-205 | A call on a concatenation is the concatenation of the calls |
| `Predictor.PredictInjective` | inference/jobs/batch_infer.py:134-135 | Different inputs never give the same output rows |
| `Predictor.FailedCountIs` | inference/jobs/batch_infer.py:278-281 | The failures counted are exactly the rows with a nonempty error |
| `Jsonl.FileRoundTrip` | api/src/storage.py:60-75 | Numbering, escaping (section 7 of RFC 8259), joining, splitting at any line boundary and decoding give back all prompts under ids 0 to n-1 |
| `Jsonl.RowRoundTrip` | api/src/storage.py:72-73 | A written line reads back as its id and prompt |
| `Jsonl.ObjectRoundTrip` | api/src/storage.py:73 | Any flat object of strings, integers and nulls reads back as its members, with or without white space after it |
| `Jsonl.EscapeRoundTrip` | api/src/storage.py:73 | Any string survives escaping and reading, surrogate pairs included, whatever text follows it |
| `Jsonl.EncodedObjectIsOneLine` | api/src/storage.py:73 | No encoded object contains a character that ends a line, for `str.splitlines` or for a file in text mode |
| `Jsonl.EscapeCharIs` | api/src/storage.py:73 | How each character is written: seven short escapes, printable ASCII as it is, the `\u` form of every other one, as the pair of surrogates that means it beyond U+FFFF |
| `Jsonl.EncodedRowIs` | api/src/storage.py:72-73 | The line of a prompt without special characters, key by key and separator by separator |
| `Jsonl.BareValuesAre` | api/src/storage.py:73 | How nulls and integers are written |
| `Jsonl.LinesAre` | scripts/benchmark.py:67 | A text is cut at each of the ends that `str.splitlines` knows, a carriage return with its newline as one, and nowhere else |
| `Jsonl.EncodeFileInjective` | api/src/storage.py:70-73 | Different prompt lists never give the same file |
| `Text.DecimalRoundTrip` | api/src/storage.py:72 | The id of row i is digits that read back as i |
| `Text.DecimalAppends` | api/src/storage.py:72 | The last digit of an id is the one of units |
| `Text.NameLeqIs` | inference/jobs/batch_infer.py:264 | The comparison of names: a prefix comes first, otherwise the first difference decides by code point |
| `Text.FirstName` | inference/jobs/batch_infer.py:264-267 | The first of the sorted names is a name that every other has as a prefix or exceeds at the first difference |
| `Text.FirstNameUnique` | inference/jobs/batch_infer.py:264-267 | There is only one such name |
| `Api.RenderInputs` | api/src/storage.py:70-73 | The lines written one by one are the whole encoded file, and it decodes to the numbered prompts |
| `Api.BatchApi.WriteInputsJsonl` | api/src/storage.py:46-75 | Rejects an empty list and touches nothing; otherwise writes the encoded prompts and leaves the rest of the directory and all others as they were |
| `Api.BatchApi.CreateBatch` | api/src/routes/batches.py:119-198 | Every column of the row, the input, the counters and the response for each outcome of the submission: attached, failed with 503, or left queued with 500; all other rows and directories unchanged |
| `Api.BatchApi.SubmitAndRecord` | api/src/routes/batches.py:159-198 | The same from the submission on: which columns of the row change, and that no other does |
| `Api.BatchApi.MarkFailed` | api/src/routes/batches.py:303-319 | Sets status, error and completion time of that row, or nothing if there is none |
| `Api.BatchApi.AttachRayJobId` | api/src/routes/batches.py:322-329 | Sets the job id of that row alone |
| `Api.BatchApi.GetBatchResults` | api/src/routes/batches.py:241-299 | 404, 409, 500 and 200 each exactly under its condition; from the lines of a 200 a client reads exactly the file's rows |
| `Api.BatchApi.IterResultsNdjson` | api/src/storage.py:79-95 | Raises exactly without the file; otherwise yields one line a row, which join to the file's text and decode to its rows |
| `Results.IterLines` | api/src/storage.py:93-95 | Of any text, the lines in order: each a line, all but the last with its newline, and joined the text as text mode reads it |
| `Results.LineEndTranslated` | api/src/storage.py:93 | Text mode turns each of the three line ends into one newline and leaves the rest |
| `Results.TallyText` | inference/jobs/batch_infer.py:271-281 | Of any text, raises exactly if a line that is not blank is malformed; otherwise counts its objects with and without a true error |
| `Results.NoLineEndTranslated` | api/src/storage.py:93 | A text without line ends is read as it is |
| `Results.HasErrorIs` | inference/jobs/batch_infer.py:278 | An error counts exactly if it is a nonempty text or a number other than zero |
| `Results.IsSpaceIs` | inference/jobs/batch_infer.py:275 | The white space that makes a line blank |
| `Results.ResultsRoundTrip` | scripts/benchmark.py:66-67 | For any rows, cutting the file's text with `splitlines`, dropping blank lines and decoding gives the rows back, and the tally of the text is the count of the rows |
| `Results.OutRoundTrip` | docs/ARCHITECTURE.md:171-181 | An object of seven members reads back as its row, and its error is true exactly if the row counts as failed |
| `Results.OutMembersAre` | inference/jobs/batch_infer.py:197-205 | Which value stands under which of the seven keys of a result line |
| `Results.LinesJoin` | api/src/storage.py:93-95 | Cutting a text after its newlines loses nothing |
| `Results.FileLinesAreLines` | api/src/storage.py:93-95 | What is cut are lines: nonempty, with no newline before the last character, and only the last may lack one |
| `Api.BatchApi.UpdateStatusOnly` | api/src/routes/batches.py:401-414 | Changes the status of an existing row and nothing else; skipping an equal status is not visible |
| `Api.BatchApi.ApplySuccess` | api/src/routes/batches.py:417-430 | The row is completed at the given time with the marker's counts, missing ones zero; the counter goes up even if the commit fails |
| `Api.BatchApi.ApplyTerminal` | api/src/routes/batches.py:433-446 | The row gets the final status, error and time; the counter goes up even if the commit fails |
| `Api.BatchApi.PollOne` | api/src/routes/batches.py:368-398 | For each raw status and each marker, exactly the status, counts, error and clock reading that they call for, or nothing where the call raises or the commit fails; no other row changes |
| `Api.BatchApi.ListActiveBatches` | api/src/db.py:157-160 | Exactly the rows that are not terminal, each once |
| `Api.BatchApi.PollActiveBatches` | api/src/routes/batches.py:333-365 | The loop over the snapshot, in whatever order, is the pointwise update Sweep of the table, and counts exactly its terminal polls |

## Left out

- HTTP routing, validation, API keys, health endpoints and settings: single-branch facts or library behaviour. Of the
  request bounds only "at least one prompt" is used; the proofs need no upper bounds.
- Log lines, Prometheus rendering and the labels of the counters.
- Torch, the tokenizer, model loading and Ray Data's internals: an arbitrary function of the prompt and an arbitrary
  schedule stand for them.
- The marker files' JSON and their fields that nobody reads back (batch id, model, traceback, times): markers are absent,
  torn or whole.
- Results.TallyText: objects with nested objects, fractions or booleans count as malformed, because the files of this
  system hold strings, integers and nulls.
- Jsonl.FileRoundTrip: strings are sequences of Unicode scalar values, so a prompt holding an unpaired surrogate is not covered.
- LoadError: the texts of the exceptions of `run_batch` are shorter than the original ones, which name the path as well.
- Half written lines: a staged file that a killed writer left is torn between two rows, so a re-run that promotes one
  tallies its rows instead of raising on its last line.
- Predictor.Call: the five preallocated lists are sequences reassigned entry by entry, since nothing aliases them; the
  batch's numpy columns are taken as strings already.
- The columns `model`, `max_tokens`, `input_path`, `results_path` and `updated_at`, which are only copied; field copying
  into the response object; conversion of times to Unix seconds.
- SQLAlchemy, engine and client lifecycle: what remains is that a session commits all or nothing, and that a restart
  loses the sweep, the calls in flight and the counters.
- Progress of rows stranded without a job id (a crash between submission and attachment, or another exception type):
  they exist in the model and nothing is claimed about them.
- Several jobs for one batch through the API: it submits once. Running again is treated at the level of the worker.
- Two workers of one batch at the same time.
- Shell scripts, images, manifests and monitoring, apart from the one-poller assumption.
