/** The distributed map of one batch: repartition, `map_batches` over two actors, gather to one
    file. Ray Data is any plan that satisfies ValidPlan; its scheduling decides nothing else. */
module Pipeline {
  import opened Text
  import opened Jsonl
  import opened Predictor
  import opened Permutations

  const BATCH_SIZE := 8
  const CONCURRENCY := 2

  // ---- Block arithmetic ----

  /** `max(2, total // 16 or 2)`. */
  function BlockCount(total: nat): nat {
    var wanted := if total / 16 == 0 then 2 else total / 16;
    if wanted < 2 then 2 else wanted
  }

  /** The size of block `i` when `total` rows are split evenly into `blocks` blocks. */
  function EvenBlockSize(total: nat, blocks: nat, i: nat): nat
    requires blocks > 0
  {
    total / blocks + (if i < total % blocks then 1 else 0)
  }

  lemma TimesMonotone(k: nat, a: int, b: int)
    ensures a <= b ==> k * a <= k * b
  {
  }

  lemma QuotientBelow(total: nat, k: nat, bound: nat)
    requires k > 0 && total < k * bound
    ensures total / k < bound
  {
    TimesMonotone(k, bound, total / k);
  }

  lemma QuotientAtLeast(total: nat, k: nat, bound: nat)
    requires k > 0 && k * bound <= total
    ensures bound <= total / k
  {
    TimesMonotone(k, total / k + 1, bound);
  }

  /** Two blocks at least; a larger number exactly as long as every block can have 16 rows. */
  lemma BlockCountIs(total: nat, k: nat)
    ensures BlockCount(total) >= 2
    ensures k >= 3 ==> (k <= BlockCount(total) <==> 16 * k <= total)
  {
    assert total == 16 * (total / 16) + total % 16;
  }

  /** There are at least as many blocks as actors; an even split never needs more than three
      calls for a block, and from 32 rows on never leaves a block with fewer than 16 rows. */
  lemma EvenBlocks(total: nat, i: nat)
    requires total >= 1 && i < BlockCount(total)
    ensures BlockCount(total) >= CONCURRENCY
    ensures EvenBlockSize(total, BlockCount(total), i) <= 3 * BATCH_SIZE
    ensures total >= 32 ==> EvenBlockSize(total, BlockCount(total), i) >= 2 * BATCH_SIZE
  {
    QuotientBelow(total, BlockCount(total), 24);
    if total >= 32 {
      QuotientAtLeast(total, BlockCount(total), 16);
    }
  }

  /** The rows in block `i` and the blocks after it. */
  function EvenRowsFrom(total: nat, blocks: nat, i: nat): nat
    requires blocks > 0 && i <= blocks
    decreases blocks - i
  {
    if i == blocks then 0 else EvenBlockSize(total, blocks, i) + EvenRowsFrom(total, blocks, i + 1)
  }

  lemma {:induction false} EvenRowsFromIs(total: nat, blocks: nat, i: nat)
    requires blocks > 0 && i <= blocks
    ensures var rest := blocks - i; var extra := total % blocks;
            EvenRowsFrom(total, blocks, i) == rest * (total / blocks) + (if i < extra then extra - i else 0)
    decreases blocks - i
  {
    if i < blocks {
      EvenRowsFromIs(total, blocks, i + 1);
      OneMore(blocks - i - 1, total / blocks);
    }
  }

  lemma OneMore(n: nat, q: nat)
    ensures (n + 1) * q == n * q + q
  {
  }

  /** The even split loses and repeats no row: its block sizes add up to the total. */
  lemma EvenBlocksCoverAll(total: nat)
    ensures EvenRowsFrom(total, BlockCount(total), 0) == total
  {
    EvenRowsFromIs(total, BlockCount(total), 0);
  }

  // ---- Plans ----

  /** The rows one call of an actor handles. */
  datatype Batch = Batch(rows: seq<InputRow>, actor: nat)

  /** One way Ray Data may run the job: the blocks after `repartition`, the batches cut from
      them, and the same batches in the order their results are gathered. */
  datatype Plan = Plan(blocks: seq<seq<InputRow>>, batches: seq<Batch>, gathered: seq<Batch>)

  function RowsOfBlocks(blocks: seq<seq<InputRow>>): seq<InputRow> {
    if blocks == [] then [] else blocks[0] + RowsOfBlocks(blocks[1..])
  }

  function RowsOf(batches: seq<Batch>): seq<InputRow> {
    if batches == [] then [] else batches[0].rows + RowsOf(batches[1..])
  }

  ghost predicate ValidPlan(rows: seq<InputRow>, plan: Plan) {
    && |plan.blocks| == BlockCount(|rows|)
    && SameElements(RowsOfBlocks(plan.blocks), rows)
    && RowsOf(plan.batches) == RowsOfBlocks(plan.blocks)
    && (forall b | b in plan.batches :: |b.rows| <= BATCH_SIZE && b.actor < CONCURRENCY)
    && SameElements(plan.gathered, plan.batches)
  }

  /** The rows of the single staged file. */
  function Gather(model: Model, gathered: seq<Batch>): seq<OutRow> {
    if gathered == [] then [] else PredictRows(model, gathered[0].rows) + Gather(model, gathered[1..])
  }

  function Output(model: Model, plan: Plan): seq<OutRow> {
    Gather(model, plan.gathered)
  }

  /** What a plain loop over the submitted prompts would produce. */
  function Expected(model: Model, prompts: seq<string>): seq<OutRow> {
    PredictRows(model, NumberRows(prompts))
  }

  /** The rows are those of the plain loop, in some order. */
  ghost predicate Complete(model: Model, prompts: seq<string>, rows: seq<OutRow>) {
    SameElements(Expected(model, prompts), rows)
  }

  // ---- Schedule independence ----

  lemma {:induction false} GatherIsPredict(model: Model, gathered: seq<Batch>)
    ensures Gather(model, gathered) == PredictRows(model, RowsOf(gathered))
  {
    if gathered != [] {
      GatherIsPredict(model, gathered[1..]);
      PredictConcat(model, gathered[0].rows, RowsOf(gathered[1..]));
    }
  }

  lemma ConcatAssociates<T>(a: seq<T>, b: seq<T>, c: seq<T>)
    ensures a + (b + c) == (a + b) + c
  {
  }

  lemma {:induction false} RowsOfConcat(left: seq<Batch>, right: seq<Batch>)
    ensures RowsOf(left + right) == RowsOf(left) + RowsOf(right)
  {
    if left == [] {
      assert left + right == right;
    } else {
      RowsOfConcat(left[1..], right);
      assert (left + right)[1..] == left[1..] + right;
      ConcatAssociates(left[0].rows, RowsOf(left[1..]), RowsOf(right));
    }
  }

  lemma {:induction false} RowsOfPermuted(left: seq<Batch>, right: seq<Batch>)
    requires SameElements(left, right)
    ensures SameElements(RowsOf(left), RowsOf(right))
    decreases |left|
  {
    if left == [] {
      SameLength(left, right);
    } else {
      var k := RemoveFirst(left, right);
      RowsOfPermuted(left[1..], right[..k] + right[k + 1..]);
      RowsOfConcat(right[..k], right[k + 1..]);
      RowsOfConcat(right[..k], [left[0]]);
      RowsOfConcat(right[..k] + [left[0]], right[k + 1..]);
      assert RowsOf([left[0]]) == left[0].rows;
    }
  }

  lemma {:induction false} PredictPermuted(model: Model, left: seq<InputRow>, right: seq<InputRow>)
    requires SameElements(left, right)
    ensures SameElements(PredictRows(model, left), PredictRows(model, right))
    decreases |left|
  {
    if left == [] {
      SameLength(left, right);
    } else {
      var k := RemoveFirst(left, right);
      PredictPermuted(model, left[1..], right[..k] + right[k + 1..]);
      PredictConcat(model, right[..k], right[k + 1..]);
      PredictConcat(model, right[..k], [left[0]]);
      PredictConcat(model, right[..k] + [left[0]], right[k + 1..]);
    }
  }

  lemma {:induction false} FailedCountPermuted(left: seq<OutRow>, right: seq<OutRow>)
    requires SameElements(left, right)
    ensures FailedCount(left) == FailedCount(right)
    ensures CompletedCount(left) == CompletedCount(right)
    decreases |left|
  {
    SameLength(left, right);
    if left != [] {
      var k := RemoveFirst(left, right);
      FailedCountPermuted(left[1..], right[..k] + right[k + 1..]);
      FailedCountConcat(right[..k], right[k + 1..]);
      FailedCountConcat(right[..k], [left[0]]);
      FailedCountConcat(right[..k] + [left[0]], right[k + 1..]);
    }
  }

  /** Any blocks, any batches, any actors, any completion order: the same rows as the plain loop. */
  lemma ScheduleIndependence(model: Model, prompts: seq<string>, plan: Plan)
    requires ValidPlan(NumberRows(prompts), plan)
    ensures Complete(model, prompts, Output(model, plan))
    ensures |Output(model, plan)| == |prompts|
  {
    var rows := NumberRows(prompts);
    RowsOfPermuted(plan.gathered, plan.batches);
    PredictPermuted(model, rows, RowsOf(plan.gathered));
    GatherIsPredict(model, plan.gathered);
    SameLength(Expected(model, prompts), Output(model, plan));
  }

  // ---- Plans exist ----

  /** The even split into blocks, from block `i` on. */
  function SplitFrom(rows: seq<InputRow>, total: nat, blocks: nat, i: nat): seq<seq<InputRow>>
    requires blocks > 0 && i <= blocks && |rows| == EvenRowsFrom(total, blocks, i)
    decreases blocks - i
  {
    if i == blocks then []
    else
      var size := EvenBlockSize(total, blocks, i);
      [rows[..size]] + SplitFrom(rows[size..], total, blocks, i + 1)
  }

  lemma {:induction false} SplitKeepsRows(rows: seq<InputRow>, total: nat, blocks: nat, i: nat)
    requires blocks > 0 && i <= blocks && |rows| == EvenRowsFrom(total, blocks, i)
    ensures var split := SplitFrom(rows, total, blocks, i);
            RowsOfBlocks(split) == rows && |split| == blocks - i
    decreases blocks - i
  {
    if i < blocks {
      var size := EvenBlockSize(total, blocks, i);
      SplitKeepsRows(rows[size..], total, blocks, i + 1);
      assert rows == rows[..size] + rows[size..];
    }
  }

  /** What `repartition` makes of the rows when it splits them evenly. */
  function EvenSplit(rows: seq<InputRow>): seq<seq<InputRow>> {
    EvenBlocksCoverAll(|rows|);
    SplitFrom(rows, |rows|, BlockCount(|rows|), 0)
  }

  /** The batches cut from a block: full ones, up to the last. */
  function CutBatches(block: seq<InputRow>, actor: nat): seq<Batch> {
    if block == [] then []
    else if |block| <= BATCH_SIZE then [Batch(block, actor)]
    else [Batch(block[..BATCH_SIZE], actor)] + CutBatches(block[BATCH_SIZE..], actor)
  }

  lemma RowsOfFirst(batch: Batch, batches: seq<Batch>)
    ensures RowsOf([batch] + batches) == batch.rows + RowsOf(batches)
  {
    assert ([batch] + batches)[1..] == batches;
  }

  lemma {:induction false} CutKeepsRows(block: seq<InputRow>, actor: nat)
    ensures RowsOf(CutBatches(block, actor)) == block
    ensures forall b | b in CutBatches(block, actor) :: |b.rows| <= BATCH_SIZE && b.actor == actor
  {
    if block == [] {
    } else if |block| <= BATCH_SIZE {
      RowsOfFirst(Batch(block, actor), []);
      assert [Batch(block, actor)] + [] == [Batch(block, actor)] && block + [] == block;
    } else {
      CutKeepsRows(block[BATCH_SIZE..], actor);
      RowsOfFirst(Batch(block[..BATCH_SIZE], actor), CutBatches(block[BATCH_SIZE..], actor));
      assert block == block[..BATCH_SIZE] + block[BATCH_SIZE..];
    }
  }

  /** The batches of all blocks, with the actors taking turns block by block. */
  function BatchesFrom(blocks: seq<seq<InputRow>>, i: nat): seq<Batch> {
    if blocks == [] then [] else CutBatches(blocks[0], i % CONCURRENCY) + BatchesFrom(blocks[1..], i + 1)
  }

  lemma {:induction false} BatchesKeepRows(blocks: seq<seq<InputRow>>, i: nat)
    ensures RowsOf(BatchesFrom(blocks, i)) == RowsOfBlocks(blocks)
    ensures forall b | b in BatchesFrom(blocks, i) :: |b.rows| <= BATCH_SIZE && b.actor < CONCURRENCY
  {
    if blocks != [] {
      CutKeepsRows(blocks[0], i % CONCURRENCY);
      BatchesKeepRows(blocks[1..], i + 1);
      RowsOfConcat(CutBatches(blocks[0], i % CONCURRENCY), BatchesFrom(blocks[1..], i + 1));
    }
  }

  /** A plan with the blocks and batches of the code's own numbers: an even split, and full batches up to
      the last of each block. */
  ghost predicate EvenPlan(rows: seq<InputRow>, plan: Plan) {
    && plan.blocks == EvenSplit(rows)
    && plan.batches == BatchesFrom(plan.blocks, 0)
    && SameElements(plan.gathered, plan.batches)
  }

  lemma EvenPlanIsValid(rows: seq<InputRow>, plan: Plan)
    requires EvenPlan(rows, plan)
    ensures ValidPlan(rows, plan)
  {
    EvenBlocksCoverAll(|rows|);
    SplitKeepsRows(rows, |rows|, BlockCount(|rows|), 0);
    BatchesKeepRows(plan.blocks, 0);
  }

  /** Whatever the rows, there is a plan of the code's own blocks and batches that keeps their order. */
  lemma PlanExists(rows: seq<InputRow>) returns (plan: Plan)
    ensures EvenPlan(rows, plan) && ValidPlan(rows, plan) && RowsOf(plan.gathered) == rows
  {
    var batches := BatchesFrom(EvenSplit(rows), 0);
    plan := Plan(EvenSplit(rows), batches, batches);
    EvenPlanIsValid(rows, plan);
    EvenBlocksCoverAll(|rows|);
    SplitKeepsRows(rows, |rows|, BlockCount(|rows|), 0);
  }

  // ---- Order ----

  predicate SortedById(rows: seq<OutRow>) {
    forall i, j | 0 <= i < j < |rows| :: NumberOf(rows[i].id) <= NumberOf(rows[j].id)
  }

  /** The entries of `want` carry the numbers `first`, `first + 1`, ... */
  predicate NumberedFrom(want: seq<OutRow>, first: nat) {
    forall i | 0 <= i < |want| :: NumberOf(want[i].id) == first + i
  }

  lemma HeadsAgree(want: seq<OutRow>, rows: seq<OutRow>, first: nat)
    requires NumberedFrom(want, first) && SortedById(rows) && SameElements(want, rows)
    requires want != [] && rows != []
    ensures rows[0] == want[0]
  {
    assert rows[0] in multiset(want) && want[0] in multiset(rows);
    var i :| 0 <= i < |want| && want[i] == rows[0];
    var j :| 0 <= j < |rows| && rows[j] == want[0];
    assert NumberOf(rows[0].id) <= NumberOf(rows[j].id);
  }

  lemma TailsPermuted(want: seq<OutRow>, rows: seq<OutRow>)
    requires want != [] && rows != [] && rows[0] == want[0] && SameElements(want, rows)
    ensures SameElements(want[1..], rows[1..])
  {
    assert rows == [rows[0]] + rows[1..] && want == [want[0]] + want[1..];
    assert multiset(want[1..]) == multiset(want) - multiset{want[0]};
    assert multiset(rows[1..]) == multiset(rows) - multiset{rows[0]};
  }

  lemma {:induction false} SortedIsUnique(want: seq<OutRow>, rows: seq<OutRow>, first: nat)
    requires NumberedFrom(want, first) && SortedById(rows) && SameElements(want, rows)
    ensures rows == want
  {
    SameLength(want, rows);
    if rows != [] {
      HeadsAgree(want, rows, first);
      TailsPermuted(want, rows);
      TailNumbered(want, first);
      TailSorted(rows);
      SortedIsUnique(want[1..], rows[1..], first + 1);
      assert rows == [rows[0]] + rows[1..] && want == [want[0]] + want[1..];
    }
  }

  lemma TailSorted(rows: seq<OutRow>)
    requires rows != [] && SortedById(rows)
    ensures SortedById(rows[1..])
  {
    forall i, j | 0 <= i < j < |rows[1..]| ensures NumberOf(rows[1..][i].id) <= NumberOf(rows[1..][j].id) {
      assert rows[1..][i] == rows[i + 1] && rows[1..][j] == rows[j + 1];
    }
  }

  lemma TailNumbered(want: seq<OutRow>, first: nat)
    requires want != [] && NumberedFrom(want, first)
    ensures NumberedFrom(want[1..], first + 1)
  {
    forall i | 0 <= i < |want[1..]| ensures NumberOf(want[1..][i].id) == first + 1 + i {
      assert want[1..][i] == want[i + 1];
    }
  }

  lemma ExpectedIsNumbered(model: Model, prompts: seq<string>)
    ensures NumberedFrom(Expected(model, prompts), 0)
    ensures Distinct(Expected(model, prompts))
  {
    var want := Expected(model, prompts);
    forall i | 0 <= i < |want| ensures NumberOf(want[i].id) == i {
      assert want[i] == PredictRow(model, NumberRows(prompts)[i]);
      DecimalRoundTrip(i);
    }
    forall i, j | 0 <= i < j < |want| ensures want[i] != want[j] {
      assert NumberOf(want[i].id) == i && NumberOf(want[j].id) == j;
    }
  }

  /** Sorting a complete output by the numeric value of `id` gives exactly the plain loop's rows. */
  lemma SortingRestoresOrder(model: Model, prompts: seq<string>, rows: seq<OutRow>, sorted: seq<OutRow>)
    requires Complete(model, prompts, rows)
    requires SameElements(rows, sorted) && SortedById(sorted)
    ensures sorted == Expected(model, prompts)
  {
    ExpectedIsNumbered(model, prompts);
    SortedIsUnique(Expected(model, prompts), sorted, 0);
  }

  /** The documented submission order holds exactly when the batches are gathered in it. */
  lemma InOrderIff(model: Model, prompts: seq<string>, plan: Plan)
    requires ValidPlan(NumberRows(prompts), plan)
    ensures Output(model, plan) == Expected(model, prompts) <==> RowsOf(plan.gathered) == NumberRows(prompts)
  {
    GatherIsPredict(model, plan.gathered);
    if Output(model, plan) == Expected(model, prompts) {
      PredictInjective(model, RowsOf(plan.gathered), NumberRows(prompts));
    }
  }

  lemma FirstTwoBlocks(rows: seq<InputRow>) returns (size: nat)
    requires |rows| >= 2
    ensures var split := EvenSplit(rows);
            && |split| >= 2 && 0 < size < |rows| && split[0] == rows[..size]
            && split[1] != [] && split[1][0] == rows[size]
  {
    var total, blocks := |rows|, BlockCount(|rows|);
    EvenBlocksCoverAll(total);
    SplitKeepsRows(rows, total, blocks, 0);
    QuotientAtLeast(total, blocks, 1);
    size := EvenBlockSize(total, blocks, 0);
    SplitSecond(rows, total, blocks);
  }

  lemma SplitSecond(rows: seq<InputRow>, total: nat, blocks: nat)
    requires blocks >= 2 && total / blocks >= 1 && |rows| == EvenRowsFrom(total, blocks, 0)
    ensures var split, size := SplitFrom(rows, total, blocks, 0), EvenBlockSize(total, blocks, 0);
            |split| >= 2 && size < |rows| && split[0] == rows[..size] && split[1] != [] && split[1][0] == rows[size]
  {
    var size := EvenBlockSize(total, blocks, 0);
    var rest := SplitFrom(rows[size..], total, blocks, 1);
    var second := EvenBlockSize(total, blocks, 1);
    assert second >= 1;
    assert SplitFrom(rows, total, blocks, 0) == [rows[..size]] + rest;
    assert rest[0] == rows[size..][..second];
  }

  lemma SwapFirstTwo(a: seq<Batch>, b: seq<Batch>, rest: seq<Batch>)
    ensures SameElements(b + (a + rest), a + (b + rest))
    ensures RowsOf(b + (a + rest)) == RowsOf(b) + RowsOf(a + rest)
  {
    RowsOfConcat(b, a + rest);
  }

  /** A plan of the code's own blocks and batches that gathers the second block first. */
  lemma SecondBlockFirst(rows: seq<InputRow>) returns (plan: Plan, size: nat)
    requires |rows| >= 2
    ensures EvenPlan(rows, plan) && 0 < size < |rows|
    ensures RowsOf(plan.gathered) != [] && RowsOf(plan.gathered)[0] == rows[size]
  {
    size := FirstTwoBlocks(rows);
    var split := EvenSplit(rows);
    var a, b, rest := CutBatches(split[0], 0), CutBatches(split[1], 1), BatchesFrom(split[2..], 2);
    assert split[1..][1..] == split[2..];
    assert BatchesFrom(split, 0) == a + BatchesFrom(split[1..], 1);
    assert BatchesFrom(split[1..], 1) == b + rest;
    SwapFirstTwo(a, b, rest);
    CutKeepsRows(split[1], 1);
    plan := Plan(split, a + (b + rest), b + (a + rest));
  }

  /** From two prompts on, a plan of the code's own blocks and batches breaks the submission order. */
  lemma OrderIsNotEnforced(model: Model, prompts: seq<string>) returns (plan: Plan)
    requires |prompts| >= 2
    ensures EvenPlan(NumberRows(prompts), plan) && ValidPlan(NumberRows(prompts), plan)
    ensures Output(model, plan) != Expected(model, prompts)
  {
    var size;
    plan, size := SecondBlockFirst(NumberRows(prompts));
    EvenPlanIsValid(NumberRows(prompts), plan);
    DecimalRoundTrip(0);
    DecimalRoundTrip(size);
    InOrderIff(model, prompts, plan);
  }

  /** The exact condition: whatever Ray does, even with the code's own blocks and batches, the output is
      in submission order if and only if there is at most one prompt. */
  lemma OrderGuaranteedIff(model: Model, prompts: seq<string>)
    ensures (forall plan | ValidPlan(NumberRows(prompts), plan) :: Output(model, plan) == Expected(model, prompts))
       <==> |prompts| <= 1
    ensures (forall plan | EvenPlan(NumberRows(prompts), plan) :: Output(model, plan) == Expected(model, prompts))
       <==> |prompts| <= 1
  {
    if |prompts| <= 1 {
      forall plan | ValidPlan(NumberRows(prompts), plan) || EvenPlan(NumberRows(prompts), plan)
        ensures Output(model, plan) == Expected(model, prompts)
      {
        if EvenPlan(NumberRows(prompts), plan) { EvenPlanIsValid(NumberRows(prompts), plan); }
        ScheduleIndependence(model, prompts, plan);
        ShortIsSorted(Expected(model, prompts), Output(model, plan));
      }
    } else {
      var plan := OrderIsNotEnforced(model, prompts);
    }
  }

  lemma ShortIsSorted(want: seq<OutRow>, rows: seq<OutRow>)
    requires SameElements(want, rows) && |want| <= 1
    ensures rows == want
  {
    SameLength(want, rows);
    if want != [] {
      assert rows[0] in multiset(want);
    }
  }

  // ---- Reading a complete output ----

  /** What a complete output tells its reader: one row a prompt, each id once, each row the
      model's answer to the prompt its id names. */
  lemma CompleteMeans(model: Model, prompts: seq<string>, rows: seq<OutRow>)
    requires Complete(model, prompts, rows)
    ensures |rows| == |prompts|
    ensures forall i | 0 <= i < |prompts| ::
              PredictRow(model, InputRow(Decimal(i), prompts[i])) in rows
    ensures forall k | 0 <= k < |rows| ::
              var i := NumberOf(rows[k].id);
              i < |prompts| && rows[k] == PredictRow(model, InputRow(Decimal(i), prompts[i]))
    ensures forall j, k | 0 <= j < k < |rows| :: rows[j].id != rows[k].id
  {
    var want := Expected(model, prompts);
    SameLength(want, rows);
    ExpectedIsNumbered(model, prompts);
    DistinctPermuted(want, rows);
    forall i | 0 <= i < |prompts| ensures PredictRow(model, InputRow(Decimal(i), prompts[i])) in rows {
      assert want[i] == PredictRow(model, NumberRows(prompts)[i]);
      assert want[i] in multiset(rows);
    }
    forall k | 0 <= k < |rows|
      ensures var i := NumberOf(rows[k].id);
              i < |prompts| && rows[k] == PredictRow(model, InputRow(Decimal(i), prompts[i]))
    {
      assert rows[k] in multiset(want);
      var i :| 0 <= i < |want| && want[i] == rows[k];
      assert want[i] == PredictRow(model, NumberRows(prompts)[i]);
    }
  }
}
