/** The inference actor: one call turns a batch of prompts into seven columns of results. */
module Predictor {
  import opened Wrappers
  import opened Jsonl

  /** One line of results.jsonl. */
  datatype OutRow = OutRow(
    id: string,
    prompt: string,
    response: Option<string>,
    finishReason: Option<string>,
    promptTokens: int,
    completionTokens: int,
    error: Option<string>)

  /** What becomes of one prompt: the statement of the row's `try` block that raises, with
      the values computed before it, or a complete generation. */
  datatype Attempt =
    | TokenizeRaises(raised: Raised)
    | GenerateRaises(promptTokens: int, raised: Raised)
    | DecodeRaises(promptTokens: int, completionTokens: int, raised: Raised)
    | FinishRaises(promptTokens: int, completionTokens: int, response: string, raised: Raised)
    | Generates(promptTokens: int, completionTokens: int, response: string, lastIsEos: bool)

  datatype Raised = Raised(typeName: string, message: string)

  /** The model and its tokenizer, as an arbitrary deterministic function of the prompt. */
  type Model = string -> Attempt

  /** What the five result columns hold of one attempt: what was stored before the exception, and its text,
      or the whole generation. */
  predicate Holds(attempt: Attempt, response: Option<string>, finishReason: Option<string>, promptTokens: int,
                  completionTokens: int, error: Option<string>) {
    match attempt
    case TokenizeRaises(raised) =>
      && response == None && finishReason == None && promptTokens == 0 && completionTokens == 0
      && error == Some(raised.typeName + (": " + raised.message))
    case GenerateRaises(p, raised) =>
      && response == None && finishReason == None && promptTokens == p && completionTokens == 0
      && error == Some(raised.typeName + (": " + raised.message))
    case DecodeRaises(p, c, raised) =>
      && response == None && finishReason == None && promptTokens == p && completionTokens == c
      && error == Some(raised.typeName + (": " + raised.message))
    case FinishRaises(p, c, text, raised) =>
      && response == Some(text) && finishReason == None && promptTokens == p && completionTokens == c
      && error == Some(raised.typeName + (": " + raised.message))
    case Generates(p, c, text, lastIsEos) =>
      && response == Some(text) && promptTokens == p && completionTokens == c && error == None
      && (finishReason == Some("stop") <==> lastIsEos) && (finishReason == Some("length") <==> !lastIsEos)
  }

  predicate RowHolds(attempt: Attempt, row: OutRow) {
    Holds(attempt, row.response, row.finishReason, row.promptTokens, row.completionTokens, row.error)
  }

  /** `f"{type(exc).__name__}: {exc}"`; never empty, so always true as a Python condition. */
  function ErrorText(raised: Raised): (text: string)
    ensures text != []
  {
    raised.typeName + (": " + raised.message)
  }

  /** The result row of one input row. */
  function PredictRow(model: Model, row: InputRow): (out: OutRow)
    ensures out.id == row.id && out.prompt == row.prompt
    ensures RowHolds(model(row.prompt), out)
    ensures out.error.Some? ==> out.error.value != []
  {
    var blank := OutRow(row.id, row.prompt, None, None, 0, 0, None);
    match model(row.prompt)
    case TokenizeRaises(e) => blank.(error := Some(ErrorText(e)))
    case GenerateRaises(p, e) => blank.(promptTokens := p, error := Some(ErrorText(e)))
    case DecodeRaises(p, c, e) =>
      blank.(promptTokens := p, completionTokens := c, error := Some(ErrorText(e)))
    case FinishRaises(p, c, r, e) =>
      blank.(promptTokens := p, completionTokens := c, response := Some(r), error := Some(ErrorText(e)))
    case Generates(p, c, r, eos) =>
      blank.(promptTokens := p, completionTokens := c, response := Some(r),
             finishReason := Some(if eos then "stop" else "length"))
  }

  /** The plain sequential row-by-row map. */
  function PredictRows(model: Model, rows: seq<InputRow>): (out: seq<OutRow>)
    ensures |out| == |rows|
    ensures forall i | 0 <= i < |rows| :: out[i] == PredictRow(model, rows[i])
  {
    if rows == [] then [] else [PredictRow(model, rows[0])] + PredictRows(model, rows[1..])
  }

  /** The seven columns a call returns. */
  datatype Columns = Columns(
    ids: seq<string>,
    prompts: seq<string>,
    responses: seq<Option<string>>,
    finishReasons: seq<Option<string>>,
    promptTokens: seq<int>,
    completionTokens: seq<int>,
    errors: seq<Option<string>>)
  {
    /** Every column has `n` entries. */
    predicate Even(n: nat) {
      && |ids| == |prompts| == n
      && |responses| == |finishReasons| == n
      && |promptTokens| == |completionTokens| == n
      && |errors| == n
    }

    function RowAt(i: nat): OutRow
      requires Even(|ids|) && i < |ids|
    {
      OutRow(ids[i], prompts[i], responses[i], finishReasons[i], promptTokens[i], completionTokens[i], errors[i])
    }
  }

  /** The `try` block of one row: what it has stored in the row's preallocated entries by the
      time it ends or raises. */
  method TryRow(model: Model, ghost id: string, prompt: string)
    returns (response: Option<string>, finishReason: Option<string>, promptTokens: int, completionTokens: int,
             error: Option<string>)
    ensures OutRow(id, prompt, response, finishReason, promptTokens, completionTokens, error)
         == PredictRow(model, InputRow(id, prompt))
    ensures Holds(model(prompt), response, finishReason, promptTokens, completionTokens, error)
  {
    response, finishReason, promptTokens, completionTokens, error := None, None, 0, 0, None;
    var attempt := model(prompt);
    if attempt.TokenizeRaises? {
      error := Some(ErrorText(attempt.raised));
      return;
    }
    promptTokens := attempt.promptTokens;
    if attempt.GenerateRaises? {
      error := Some(ErrorText(attempt.raised));
      return;
    }
    completionTokens := attempt.completionTokens;
    if attempt.DecodeRaises? {
      error := Some(ErrorText(attempt.raised));
      return;
    }
    response := Some(attempt.response);
    if attempt.FinishRaises? {
      error := Some(ErrorText(attempt.raised));
      return;
    }
    finishReason := Some(if attempt.lastIsEos then "stop" else "length");
  }

  /** `QwenPredictor.__call__`: fills the preallocated columns row by row, isolating each row's errors. */
  method Call(model: Model, ids: seq<string>, prompts: seq<string>) returns (columns: Columns)
    requires |ids| == |prompts|
    ensures columns.Even(|prompts|)
    ensures columns.ids == ids && columns.prompts == prompts
    ensures forall i | 0 <= i < |prompts| ::
              Holds(model(prompts[i]), columns.responses[i], columns.finishReasons[i], columns.promptTokens[i],
                    columns.completionTokens[i], columns.errors[i])
    ensures forall i | 0 <= i < |prompts| ::
              columns.RowAt(i) == PredictRow(model, InputRow(ids[i], prompts[i]))
  {
    var n := |prompts|;
    var responses: seq<Option<string>> := seq(n, _ => None);
    var finishReasons: seq<Option<string>> := seq(n, _ => None);
    var promptTokensOut: seq<int> := seq(n, _ => 0);
    var completionTokensOut: seq<int> := seq(n, _ => 0);
    var errors: seq<Option<string>> := seq(n, _ => None);
    for idx := 0 to n
      invariant |responses| == |finishReasons| == |errors| == |promptTokensOut| == |completionTokensOut| == n
      invariant forall i | 0 <= i < idx ::
                  OutRow(ids[i], prompts[i], responses[i], finishReasons[i], promptTokensOut[i],
                         completionTokensOut[i], errors[i])
                  == PredictRow(model, InputRow(ids[i], prompts[i]))
      invariant forall i | 0 <= i < idx ::
                  Holds(model(prompts[i]), responses[i], finishReasons[i], promptTokensOut[i],
                        completionTokensOut[i], errors[i])
    {
      var response, finishReason, promptTokens, completionTokens, error := TryRow(model, ids[idx], prompts[idx]);
      responses := responses[idx := response];
      finishReasons := finishReasons[idx := finishReason];
      promptTokensOut := promptTokensOut[idx := promptTokens];
      completionTokensOut := completionTokensOut[idx := completionTokens];
      errors := errors[idx := error];
    }
    columns := Columns(ids, prompts, responses, finishReasons, promptTokensOut, completionTokensOut, errors);
  }

  /** A row holds exactly one of response and error, unless what follows the response raises:
      then it holds both. */
  lemma OneOfResponseAndError(model: Model, row: InputRow)
    ensures var out := PredictRow(model, row);
            && (out.response.Some? || out.error.Some?)
            && ((out.response.Some? && out.error.Some?) <==> model(row.prompt).FinishRaises?)
            && (out.finishReason.Some? <==> model(row.prompt).Generates?)
  {
    var out := PredictRow(model, row);
    match model(row.prompt)
    case TokenizeRaises(_) => assert out.response == None;
    case GenerateRaises(_, _) => assert out.response == None;
    case DecodeRaises(_, _, _) => assert out.response == None;
    case FinishRaises(_, _, _, _) => assert out.finishReason == None;
    case Generates(_, _, _, _) => assert out.error == None;
  }

  /** Batching is invisible: a call on a concatenation gives the concatenation of the calls. */
  lemma PredictConcat(model: Model, left: seq<InputRow>, right: seq<InputRow>)
    ensures PredictRows(model, left + right) == PredictRows(model, left) + PredictRows(model, right)
  {
  }

  /** Different input rows give different result rows, since ids and prompts are copied. */
  lemma PredictInjective(model: Model, left: seq<InputRow>, right: seq<InputRow>)
    requires PredictRows(model, left) == PredictRows(model, right)
    ensures left == right
  {
    assert |left| == |right|;
    forall i | 0 <= i < |left| ensures left[i] == right[i] {
      assert PredictRow(model, left[i]) == PredictRow(model, right[i]);
    }
  }

  // ---- Counting failures ----

  /** `if row.get("error")`: true of a present, nonempty error. */
  predicate CountsAsFailed(row: OutRow) {
    row.error.Some? && row.error.value != []
  }

  function FailedCount(rows: seq<OutRow>): (n: nat)
    ensures n <= |rows|
  {
    if rows == [] then 0 else (if CountsAsFailed(rows[0]) then 1 else 0) + FailedCount(rows[1..])
  }

  function CompletedCount(rows: seq<OutRow>): nat {
    |rows| - FailedCount(rows)
  }

  lemma {:induction false} FailedCountConcat(left: seq<OutRow>, right: seq<OutRow>)
    ensures FailedCount(left + right) == FailedCount(left) + FailedCount(right)
  {
    if left == [] {
      assert left + right == right;
    } else {
      FailedCountConcat(left[1..], right);
      assert (left + right)[1..] == left[1..] + right;
    }
  }

  /** The places of the rows with a nonempty error. */
  function FailedAt(rows: seq<OutRow>): set<nat> {
    set i: nat | i < |rows| && rows[i].error.Some? && rows[i].error.value != []
  }

  /** The tally counts exactly the rows with a nonempty error. */
  lemma {:induction false} FailedCountIs(rows: seq<OutRow>)
    ensures FailedCount(rows) == |FailedAt(rows)|
  {
    if rows != [] {
      var last := |rows| - 1;
      FailedCountIs(rows[..last]);
      FailedCountConcat(rows[..last], [rows[last]]);
      assert rows == rows[..last] + [rows[last]];
      FailedAtMore(rows[..last], rows[last]);
    } else {
      assert FailedAt(rows) == {};
    }
  }

  lemma FailedAtMore(rows: seq<OutRow>, row: OutRow)
    ensures |FailedAt(rows + [row])|
         == |FailedAt(rows)| + (if row.error.Some? && row.error.value != [] then 1 else 0)
  {
    if row.error.Some? && row.error.value != [] {
      assert FailedAt(rows + [row]) == FailedAt(rows) + {|rows|};
    } else {
      assert FailedAt(rows + [row]) == FailedAt(rows);
    }
  }
}
