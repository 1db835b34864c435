/** The API process: `create_batch`, the results handler, the row helpers and the sweep, over
    the batches table, the shared volume and the batch counters. Each method is one call with
    nothing running beside it; what interleaving does to them is the subject of Protocol. */
module Api {
  import opened Wrappers
  import opened Jsonl
  import opened Predictor
  import opened Results
  import opened Domain
  import opened Table

  /** What `ray_client.submit_batch` does: returns an id, raises one of the two exceptions that
      `create_batch` catches, or raises another one. */
  datatype Submission = Returns(job: JobId) | RaisesCaught(typeName: string) | RaisesOther

  datatype Response =
    | Answered(row: Row)
    | Streamed(body: seq<OutRow>)
    | NotFound
    | Conflict(status: Status)
    | Unavailable
    | ServerError

  const NO_RESULTS := "Results file not found"

  function SubmissionError(typeName: string): string {
    "Ray submission failed: " + typeName
  }

  /** The text of a file's rows from `k` on begins with the line of row `k`. */
  lemma EncodeNext(rows: seq<InputRow>, k: nat)
    requires k < |rows|
    ensures EncodeRows(rows[k..]) == EncodeRow(rows[k]) + ['\n'] + EncodeRows(rows[k + 1..])
  {
    assert rows[k..][1..] == rows[k + 1..];
  }

  /** Writing the next line keeps the text a beginning of the whole file. */
  lemma WriteLineOk(prompts: seq<string>, next: nat, text: string)
    requires next < |prompts| && text + EncodeRows(NumberRows(prompts)[next..]) == EncodeFile(prompts)
    ensures text + (EncodeRow(NumberRows(prompts)[next]) + ['\n']) + EncodeRows(NumberRows(prompts)[next + 1..])
         == EncodeFile(prompts)
  {
    var rows, line := NumberRows(prompts), EncodeRow(NumberRows(prompts)[next]) + ['\n'];
    EncodeNext(rows, next);
    Regroup(text, line, EncodeRows(rows[next + 1..]));
  }

  /** The lines of input.jsonl, written one after the other. */
  method RenderInputs(prompts: seq<string>) returns (text: string)
    ensures text == EncodeFile(prompts)
    ensures DecodeFile(text) == Some(NumberRows(prompts))
  {
    var inputRows := NumberRows(prompts);
    text := [];
    for k := 0 to |prompts|
      invariant text + EncodeRows(inputRows[k..]) == EncodeFile(prompts)
    {
      WriteLineOk(prompts, k, text);
      text := text + (EncodeRow(inputRows[k]) + ['\n']);
    }
    assert inputRows[|prompts|..] == [] && text + [] == text;
    FileRoundTrip(prompts);
  }

  const EMPTY_DIR := Dir(None, None, {}, None, Absent, Absent)

  lemma SweepOfActive(world: Answers, rows: Rows, done: set<BatchId>)
    requires forall b :: b in done <==> b in rows && !rows[b].status.Terminal()
    ensures SweepOf(world, rows, done) == Sweep(world, rows)
    ensures TerminalPolls(world, rows) * done == TerminalPolls(world, rows)
  {
  }

  lemma SweepOfNone(world: Answers, rows: Rows)
    ensures SweepOf(world, rows, {}) == rows
  {
  }

  /** The first `k` ids. */
  function FirstIds(ids: seq<BatchId>, k: nat): set<BatchId>
    requires k <= |ids|
  {
    if k == 0 then {} else FirstIds(ids, k - 1) + {ids[k - 1]}
  }

  /** The active rows, each once. */
  ghost predicate IsListOf(ids: seq<BatchId>, rows: Rows) {
    && (forall b :: b in ids <==> b in rows && !rows[b].status.Terminal())
    && (forall i, k | 0 <= i < k < |ids| :: ids[i] != ids[k])
  }

  lemma {:induction false} FirstIdsHold(ids: seq<BatchId>, k: nat, b: BatchId)
    requires k <= |ids|
    ensures b in FirstIds(ids, k) <==> b in ids[..k]
  {
    if k > 0 {
      FirstIdsHold(ids, k - 1, b);
      assert ids[..k] == ids[..k - 1] + [ids[k - 1]];
    }
  }

  lemma NextIsNew(ids: seq<BatchId>, rows: Rows, k: nat)
    requires k < |ids| && IsListOf(ids, rows)
    ensures ids[k] in rows && !rows[ids[k]].status.Terminal() && ids[k] !in FirstIds(ids, k)
  {
    FirstIdsHold(ids, k, ids[k]);
    assert ids[k] in ids;
  }

  /** How many of the first `k` ids are in `all`. */
  function CountIn(all: set<BatchId>, ids: seq<BatchId>, k: nat): nat
    requires k <= |ids|
  {
    if k == 0 then 0 else CountIn(all, ids, k - 1) + (if ids[k - 1] in all then 1 else 0)
  }

  lemma {:induction false} CountInIs(all: set<BatchId>, ids: seq<BatchId>, rows: Rows, k: nat)
    requires k <= |ids| && IsListOf(ids, rows)
    ensures CountIn(all, ids, k) == |all * FirstIds(ids, k)|
  {
    if k == 0 {
      assert all * {} == {};
    } else {
      CountInIs(all, ids, rows, k - 1);
      NextIsNew(ids, rows, k - 1);
      OneMoreIn(all, FirstIds(ids, k - 1), ids[k - 1]);
    }
  }

  lemma AllListed(world: Answers, rows: Rows, ids: seq<BatchId>)
    requires IsListOf(ids, rows)
    ensures SweepOf(world, rows, FirstIds(ids, |ids|)) == Sweep(world, rows)
    ensures CountIn(TerminalPolls(world, rows), ids, |ids|) == |TerminalPolls(world, rows)|
  {
    forall b ensures b in FirstIds(ids, |ids|) <==> b in rows && !rows[b].status.Terminal() {
      FirstIdsHold(ids, |ids|, b);
      assert ids[..|ids|] == ids;
    }
    SweepOfActive(world, rows, FirstIds(ids, |ids|));
    CountInIs(TerminalPolls(world, rows), ids, rows, |ids|);
  }

  class BatchApi {
    var rows: Rows
    var dirs: map<BatchId, Dir>
    var submittedTotal: nat
    var terminalTotal: nat
    var submitFailuresTotal: nat

    constructor ()
      ensures rows == map[] && dirs == map[]
      ensures submittedTotal == terminalTotal == submitFailuresTotal == 0
    {
      rows, dirs := map[], map[];
      submittedTotal, terminalTotal, submitFailuresTotal := 0, 0, 0;
    }

    // ---- POST ----

    /** `write_inputs_jsonl`: rejects an empty list, otherwise writes one line a prompt. */
    method WriteInputsJsonl(b: BatchId, prompts: seq<string>) returns (ok: bool)
      modifies this`dirs
      ensures ok <==> prompts != []
      ensures !ok ==> dirs == old(dirs)
      ensures ok ==> && b in dirs && dirs == old(dirs)[b := dirs[b]]
                     && dirs[b].input == Some(EncodeFile(prompts))
                     && dirs[b].(input := None)
                        == if b in old(dirs) then old(dirs)[b].(input := None) else Dir(None, None, {}, None, Absent, Absent)
    {
      if prompts == [] {
        return false;
      }
      var target := if b in dirs then dirs[b] else EMPTY_DIR;
      var text := RenderInputs(prompts);
      dirs := dirs[b := target.(input := Some(text))];
      ok := true;
    }

    /** `_mark_failed`. */
    method MarkFailed(b: BatchId, error: string, now: int)
      modifies this`rows
      ensures rows == Table.MarkFailed(old(rows), b, error, now)
      ensures rows == if b !in old(rows) then old(rows)
                      else old(rows)[b := old(rows)[b].(status := Failed, error := Some(error), completedAt := Some(now))]
    {
      if b !in rows {
        return;
      }
      var row := rows[b];
      row := row.(status := Failed);
      row := row.(error := Some(error));
      row := row.(completedAt := Some(now));
      rows := rows[b := row];
    }

    /** `_attach_ray_job_id`. */
    method AttachRayJobId(b: BatchId, j: JobId)
      modifies this`rows
      ensures rows == Table.AttachRayJobId(old(rows), b, j)
      ensures rows == if b !in old(rows) then old(rows) else old(rows)[b := old(rows)[b].(rayJobId := Some(j))]
    {
      if b !in rows {
        return;
      }
      var row := rows[b];
      row := row.(rayJobId := Some(j));
      rows := rows[b := row];
    }

    /** `create_batch` from the submission on: the row keeps its queued state under the job's id,
        becomes failed, or is left as it was inserted. */
    method SubmitAndRecord(b: BatchId, ray: Submission, failedAt: int) returns (response: Response)
      requires b in rows
      modifies this`rows, this`submittedTotal, this`submitFailuresTotal
      ensures b in rows && rows == old(rows)[b := rows[b]]
      ensures match ray
              case Returns(j) =>
                response == Answered(rows[b]) && rows[b] == old(rows)[b].(rayJobId := Some(j))
              case RaisesCaught(t) =>
                && response == Unavailable
                && rows[b].status == Failed && rows[b].error == Some("Ray submission failed: " + t)
                && rows[b].completedAt == Some(failedAt)
                && rows[b].(status := old(rows)[b].status, error := old(rows)[b].error,
                            completedAt := old(rows)[b].completedAt) == old(rows)[b]
              case RaisesOther => response == ServerError && rows[b] == old(rows)[b]
      ensures submittedTotal == old(submittedTotal) + (if ray.Returns? then 1 else 0)
      ensures submitFailuresTotal == old(submitFailuresTotal) + (if ray.RaisesCaught? then 1 else 0)
    {
      match ray {
        case RaisesOther =>
          response := ServerError;
        case RaisesCaught(typeName) =>
          submitFailuresTotal := submitFailuresTotal + 1;
          MarkFailed(b, SubmissionError(typeName), failedAt);
          response := Unavailable;
        case Returns(j) =>
          AttachRayJobId(b, j);
          submittedTotal := submittedTotal + 1;
          response := if b in rows then Answered(rows[b]) else ServerError;
      }
    }

    /** `create_batch` under a fresh id: input first, then the queued row, then the job. */
    method CreateBatch(b: BatchId, prompts: seq<string>, ray: Submission, now: int, failedAt: int)
      returns (response: Response)
      requires b !in rows && b !in dirs
      modifies this
      ensures prompts == [] ==> response == ServerError && rows == old(rows) && dirs == old(dirs)
      ensures prompts != [] ==>
                && b in rows && rows == old(rows)[b := rows[b]]
                && dirs == old(dirs)[b := EMPTY_DIR.(input := Some(EncodeFile(prompts)))]
      ensures prompts != [] ==>
                match ray
                case Returns(j) =>
                  && response == Answered(rows[b])
                  && rows[b] == Row(Queued, Some(j), |prompts|, 0, 0, None, now, None)
                case RaisesCaught(t) =>
                  && response == Unavailable
                  && rows[b] == Row(Failed, None, |prompts|, 0, 0, Some("Ray submission failed: " + t), now, Some(failedAt))
                case RaisesOther =>
                  response == ServerError && rows[b] == Row(Queued, None, |prompts|, 0, 0, None, now, None)
      ensures submittedTotal == old(submittedTotal) + (if prompts != [] && ray.Returns? then 1 else 0)
      ensures submitFailuresTotal == old(submitFailuresTotal) + (if prompts != [] && ray.RaisesCaught? then 1 else 0)
      ensures terminalTotal == old(terminalTotal)
    {
      var written := WriteInputsJsonl(b, prompts);
      if !written {
        return ServerError;
      }
      rows := rows[b := NewRow(|prompts|, now)];
      response := SubmitAndRecord(b, ray, failedAt);
    }

    // ---- GET results ----

    /** `iter_results_ndjson`: raises without the file, otherwise yields its text line by line, from which
        a client reads the file's rows. */
    method IterResultsNdjson(b: BatchId) returns (r: Result<seq<string>, string>)
      ensures r.Err? <==> b !in dirs || dirs[b].results.None?
      ensures r.Ok? ==> var file := dirs[b].results.value;
                        && |r.value| == |file| && Joined(r.value) == EncodeResults(file)
                        && ClientRows(Joined(r.value)) == Some(file)
    {
      if b !in dirs || dirs[b].results.None? {
        return Err(NO_RESULTS);
      }
      var file := dirs[b].results.value;
      ResultsRoundTrip(file);
      var lines := IterLines(EncodeResults(file));
      r := Ok(lines);
    }

    /** `get_batch_results`: 404 without a row, 409 unless completed, 500 without the file, otherwise the
        whole file, from whose lines a client reads every row. */
    method GetBatchResults(b: BatchId) returns (response: Response, lines: seq<string>)
      ensures response.NotFound? <==> b !in rows
      ensures response.Conflict? <==> b in rows && rows[b].status != Completed
      ensures response.Conflict? ==> response.status == rows[b].status
      ensures response.ServerError? <==>
                b in rows && rows[b].status == Completed && (b !in dirs || dirs[b].results.None?)
      ensures response.Streamed? <==>
                b in rows && rows[b].status == Completed && b in dirs && dirs[b].results.Some?
      ensures response.Streamed? ==> Some(response.body) == dirs[b].results
      ensures if response.Streamed? then ClientRows(Joined(lines)) == Some(response.body) else lines == []
    {
      if b !in rows {
        return NotFound, [];
      }
      if rows[b].status != Completed {
        return Conflict(rows[b].status), [];
      }
      var stream := IterResultsNdjson(b);
      if stream.Err? {
        return ServerError, [];
      }
      response, lines := Streamed(dirs[b].results.value), stream.value;
    }

    // ---- The sweep ----

    /** `_update_status_only`. */
    method UpdateStatusOnly(b: BatchId, status: Status, lost: bool)
      modifies this`rows
      ensures rows == if lost then old(rows) else ApplyUpdate(old(rows), b, SetStatus(status))
      ensures b in old(rows) && !lost ==> rows == old(rows)[b := old(rows)[b].(status := status)]
    {
      if b !in rows || rows[b].status == status || lost {
        assert b in rows && rows[b].status == status ==> UpdateRow(rows[b], SetStatus(status)) == rows[b];
        return;
      }
      rows := rows[b := rows[b].(status := status)];
    }

    /** `_apply_success`; `lost` says that the commit fails, after the counter was incremented. */
    method ApplySuccess(b: BatchId, payload: SuccessPayload, at: int, lost: bool)
      modifies this`rows, this`terminalTotal
      ensures rows == if lost then old(rows) else ApplyUpdate(old(rows), b, Succeed(payload, at))
      ensures b in old(rows) && !lost ==>
                rows == old(rows)[b := old(rows)[b].(
                  status := Completed, completedAt := Some(at),
                  completedCount := if payload.completed.Some? then payload.completed.value else 0,
                  failedCount := if payload.failed.Some? then payload.failed.value else 0)]
      ensures terminalTotal == old(terminalTotal) + (if b in old(rows) then 1 else 0)
    {
      if b !in rows {
        return;
      }
      var row := rows[b];
      row := row.(status := Completed);
      row := row.(completedCount := CountOr0(payload.completed));
      row := row.(failedCount := CountOr0(payload.failed));
      row := row.(completedAt := Some(at));
      terminalTotal := terminalTotal + 1;
      if !lost {
        rows := rows[b := row];
      }
    }

    /** `_apply_terminal`. */
    method ApplyTerminal(b: BatchId, final: Status, error: Option<string>, at: int, lost: bool)
      modifies this`rows, this`terminalTotal
      ensures rows == if lost then old(rows) else ApplyUpdate(old(rows), b, Finish(final, error, at))
      ensures b in old(rows) && !lost ==>
                rows == old(rows)[b := old(rows)[b].(status := final, error := error, completedAt := Some(at))]
      ensures terminalTotal == old(terminalTotal) + (if b in old(rows) then 1 else 0)
    {
      if b !in rows {
        return;
      }
      var row := rows[b];
      row := row.(status := final);
      row := row.(error := error);
      row := row.(completedAt := Some(at));
      terminalTotal := terminalTotal + 1;
      if !lost {
        rows := rows[b := row];
      }
    }

    /** `_poll_one`: returns without effect where `_poll_one` raises before its commit. */
    method PollOne(b: BatchId, j: JobId, inputCount: nat, world: Answers)
      requires b in rows && rows[b].rayJobId == Some(j) && rows[b].inputCount == inputCount
      requires world.dirs == dirs
      modifies this`rows, this`terminalTotal
      ensures rows == old(rows)[b := PolledRow(world, b, old(rows)[b])]
      ensures if j !in world.ray || b in world.lost then rows == old(rows)
              else && b in rows && rows == old(rows)[b := rows[b]]
                   && PollWrites(world.ray[j], SuccessOf(Get(dirs, b)), FailedOf(Get(dirs, b)), world.clock(b),
                                 old(rows)[b], rows[b])
      ensures var u := Decision(world, b, old(rows)[b]);
              terminalTotal == old(terminalTotal) + (if u.Some? && u.value.Target().Terminal() then 1 else 0)
    {
      PollWritesThat(world, b, rows[b]);
      if j !in world.ray {
        return;
      }
      var status := MapStatus(world.ray[j]);
      var lost := b in world.lost;
      if !status.Terminal() {
        UpdateStatusOnly(b, status, lost);
        return;
      }
      var now := world.clock(b);
      if status == Completed {
        var marker := ReadSuccessMarker(Get(dirs, b));
        if marker.Ok? {
          if marker.value.Some? {
            ApplySuccess(b, marker.value.value, now, lost);
          } else {
            ApplySuccess(b, SuccessPayload(inputCount, Some(inputCount), Some(0)), now, lost);
          }
        }
      } else if status == Failed {
        var marker := ReadFailureMarker(Get(dirs, b));
        if marker.Ok? {
          ApplyTerminal(b, Failed, FailureMessage(marker.value), now, lost);
        }
      } else {
        ApplyTerminal(b, Cancelled, None, now, lost);
      }
    }

    /** `list_active_batches`: the active rows, each once, in any order. */
    method ListActiveBatches() returns (active: seq<BatchId>)
      ensures IsListOf(active, rows)
    {
      active := [];
      var pending := set b | b in rows && !rows[b].status.Terminal();
      while pending != {}
        invariant pending <= rows.Keys
        invariant forall b :: b in rows && !rows[b].status.Terminal() <==> b in pending || b in active
        invariant forall b | b in pending :: b !in active
        invariant forall i, k | 0 <= i < k < |active| :: active[i] != active[k]
        decreases |pending|
      {
        var b :| b in pending;
        pending := pending - {b};
        active := active + [b];
      }
    }

    /** The body of the sweep's loop. */
    method PollNext(active: seq<BatchId>, k: nat, world: Answers, ghost before: Rows)
      requires k < |active| && IsListOf(active, before)
      requires rows == SweepOf(world, before, FirstIds(active, k)) && world.dirs == dirs
      modifies this`rows, this`terminalTotal
      ensures rows == SweepOf(world, before, FirstIds(active, k + 1))
      ensures terminalTotal == old(terminalTotal) + (if active[k] in TerminalPolls(world, before) then 1 else 0)
    {
      var b := active[k];
      NextIsNew(active, before, k);
      SweepOneMore(world, before, FirstIds(active, k), b);
      var row := rows[b];
      if row.rayJobId.Some? {
        PollOne(b, row.rayJobId.value, row.inputCount, world);
      } else {
        assert rows[b := row] == rows;
      }
    }

    /** `poll_active_batches`: whatever the order of the snapshot, the table becomes Sweep. */
    method PollActiveBatches(world: Answers)
      requires world.dirs == dirs
      modifies this`rows, this`terminalTotal
      ensures rows == Sweep(world, old(rows))
      ensures terminalTotal == old(terminalTotal) + |TerminalPolls(world, old(rows))|
    {
      ghost var before := rows;
      var active := ListActiveBatches();
      SweepOfNone(world, before);
      for k := 0 to |active|
        invariant rows == SweepOf(world, before, FirstIds(active, k))
        invariant terminalTotal == old(terminalTotal) + CountIn(TerminalPolls(world, before), active, k)
      {
        PollNext(active, k, world, before);
      }
      AllListed(world, before, active);
    }
  }
}
