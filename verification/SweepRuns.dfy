/** A sweep of the step machine that nothing interrupts computes exactly Table.Sweep, so the
    imperative sweep of Api and the interleaved poller of Protocol are the same program. */
module SweepRuns {
  import opened Wrappers
  import opened Domain
  import opened Table
  import opened Api
  import opened Protocol
  import opened Invariant
  import opened Preservation
  import opened Lifecycle

  /** The answers a sweep meets when the system stands still and every commit succeeds. */
  function Standing(s: System): Answers {
    Answers(map j | j in s.jobs :: s.jobs[j].status, s.dirs, _ => s.now, {})
  }

  lemma {:induction false} RunConcat(models: Models, s: System, first: seq<Action>, middle: System, second: seq<Action>)
    requires Run(models, s, first) == Some(middle)
    ensures Run(models, s, first + second) == Run(models, middle, second)
  {
    if second == [] {
      assert first + second == first;
    } else {
      var last := |second| - 1;
      RunConcat(models, s, first, middle, second[..last]);
      assert (first + second)[..|first + second| - 1] == first + second[..last];
    }
  }

  lemma RunOne(models: Models, s: System, a: Action)
    ensures Run(models, s, [a]) == Step(models, s, a)
  {
    assert [a][..0] == [];
    assert Run(models, s, []) == Some(s);
  }

  lemma RunThen(models: Models, s: System, actions: seq<Action>, middle: System, a: Action)
    requires Run(models, s, actions) == Some(middle)
    ensures Run(models, s, actions + [a]) == Step(models, middle, a)
  {
    RunConcat(models, s, actions, middle, [a]);
    RunOne(models, middle, a);
  }

  // ---- An undisturbed sweep ----

  /** A step of a sweep that neither gives up on a row nor loses a commit. */
  predicate Undisturbed(a: Action) {
    a.SkipUnattached? || a.AskRay? || a.ReadMarkers? || a.CommitUpdate? || a.EndSweep?
  }

  /** `todo` shows active rows as they are in `s`, each once, attached ones with a job that exists. */
  ghost predicate Shows(s: System, todo: seq<Snap>) {
    && (forall i | 0 <= i < |todo| ::
          && todo[i].id in s.rows && todo[i] == SnapOf(s.rows, todo[i].id)
          && !s.rows[todo[i].id].status.Terminal()
          && (todo[i].job.Some? ==> todo[i].job.value in s.jobs))
    && (forall i, k | 0 <= i < k < |todo| :: todo[i].id != todo[k].id)
  }

  function IdsOf(todo: seq<Snap>): set<BatchId> {
    set i | 0 <= i < |todo| :: todo[i].id
  }

  /** How far the sweep of `todo` is in state `t`. */
  function Polled(todo: seq<Snap>, t: System): int {
    |todo| - |Todo(t.poller)|
  }

  /** What the poller holds about the row it is at: what the standing world answers. */
  predicate HeadAgrees(s: System, t: System) {
    match t.poller
    case Sleeping => true
    case Sweeping(_) => true
    case Heard(todo, answer) =>
      && todo != [] && todo[0].job.Some? && todo[0].job.value in s.jobs
      && answer == MapStatus(s.jobs[todo[0].job.value].status)
    case Deciding(todo, update) =>
      todo != [] && todo[0].id in s.rows && Decision(Standing(s), todo[0].id, s.rows[todo[0].id]) == Some(update)
  }

  /** `t` is reached by sweeping a part of `todo` from `s`, and nothing else changed. */
  ghost predicate Midway(s: System, todo: seq<Snap>, t: System) {
    var k := Polled(todo, t);
    && 0 <= k && Todo(t.poller) == todo[k..]
    && t == s.(rows := SweepOf(Standing(s), s.rows, IdsOf(todo[..k])), poller := t.poller, metrics := t.metrics)
    && HeadAgrees(s, t)
  }

  /** Where the row at the head stands when the sweep comes to it, and what polling it does. */
  lemma HeadIsNext(s: System, todo: seq<Snap>, k: nat)
    requires Shows(s, todo) && k < |todo|
    ensures todo[k..][0] == todo[k] && todo[k..][1..] == todo[k + 1..]
    ensures var b, before := todo[k].id, SweepOf(Standing(s), s.rows, IdsOf(todo[..k]));
            && b in before && before[b] == s.rows[b]
            && SweepOf(Standing(s), s.rows, IdsOf(todo[..k + 1])) == before[b := PolledRow(Standing(s), b, s.rows[b])]
  {
    var b := todo[k].id;
    assert todo[..k + 1][..k] == todo[..k];
    forall x ensures x in IdsOf(todo[..k + 1]) <==> x in IdsOf(todo[..k]) + {b} {
      IdsOfMore(todo, k, x);
    }
    assert IdsOf(todo[..k + 1]) == IdsOf(todo[..k]) + {b};
    SweepOneMore(Standing(s), s.rows, IdsOf(todo[..k]), b);
  }

  lemma IdsOfMore(todo: seq<Snap>, k: nat, x: BatchId)
    requires k < |todo|
    ensures x in IdsOf(todo[..k + 1]) <==> x in IdsOf(todo[..k]) || x == todo[k].id
  {
    if x in IdsOf(todo[..k]) {
      var i :| 0 <= i < k && todo[..k][i].id == x;
      assert todo[..k + 1][i].id == x;
    }
    if x == todo[k].id {
      assert todo[..k + 1][k].id == x;
    }
  }

  /** A step that moves on past the head, having done to the table what polling the head does. */
  lemma MovedPast(s: System, todo: seq<Snap>, t: System, t': System)
    requires Shows(s, todo) && Midway(s, todo, t) && Todo(t.poller) != []
    requires var b := Todo(t.poller)[0].id;
             && b in s.rows
             && t' == t.(rows := t.rows[b := PolledRow(Standing(s), b, s.rows[b])],
                         poller := Sweeping(Todo(t.poller)[1..]), metrics := t'.metrics)
    ensures Midway(s, todo, t')
  {
    HeadIsNext(s, todo, Polled(todo, t));
  }

  lemma SkipMidway(s: System, todo: seq<Snap>, t: System, t': System)
    requires Shows(s, todo) && Midway(s, todo, t)
    requires PollerStep(t, SkipUnattached) == Some(t')
    ensures Midway(s, todo, t')
  {
    HeadIsNext(s, todo, Polled(todo, t));
    var b := t.poller.todo[0].id;
    assert t.rows[b := s.rows[b]] == t.rows;
    MovedPast(s, todo, t, t');
  }

  lemma AskMidway(s: System, todo: seq<Snap>, t: System, t': System)
    requires Shows(s, todo) && Midway(s, todo, t)
    requires PollerStep(t, AskRay) == Some(t')
    ensures Midway(s, todo, t')
  {
  }

  lemma ReadMidway(s: System, todo: seq<Snap>, t: System, t': System)
    requires Shows(s, todo) && Midway(s, todo, t)
    requires PollerStep(t, ReadMarkers) == Some(t')
    ensures Midway(s, todo, t')
  {
    HeadIsNext(s, todo, Polled(todo, t));
    var snap := t.poller.todo[0];
    var row := s.rows[snap.id];
    assert t.rows[snap.id := row] == t.rows;
    assert Standing(s).ray[row.rayJobId.value] == s.jobs[row.rayJobId.value].status;
    if t'.poller.Sweeping? {
      MovedPast(s, todo, t, t');
    }
  }

  lemma CommitMidway(s: System, todo: seq<Snap>, t: System, t': System)
    requires Shows(s, todo) && Midway(s, todo, t)
    requires PollerStep(t, CommitUpdate) == Some(t')
    ensures Midway(s, todo, t')
  {
    HeadIsNext(s, todo, Polled(todo, t));
    CommitShape(t, t');
    MovedPast(s, todo, t, t');
  }

  lemma MidwayStep(s: System, todo: seq<Snap>, t: System, a: Action, t': System)
    requires Shows(s, todo) && Midway(s, todo, t)
    requires Undisturbed(a) && PollerStep(t, a) == Some(t')
    ensures Midway(s, todo, t')
  {
    if a.SkipUnattached? {
      SkipMidway(s, todo, t, t');
    } else if a.AskRay? {
      AskMidway(s, todo, t, t');
    } else if a.ReadMarkers? {
      ReadMidway(s, todo, t, t');
    } else if a.CommitUpdate? {
      CommitMidway(s, todo, t, t');
    }
  }

  lemma SweepStarts(models: Models, s: System, order: seq<BatchId>) returns (started: System)
    requires Inv(models, s) && s.poller.Sleeping? && IsListOf(order, s.rows)
    ensures Step(models, s, StartSweep(order)) == Some(started)
    ensures started.poller.Sweeping? && Shows(s, started.poller.todo)
    ensures Midway(s, started.poller.todo, started)
    ensures SweepOf(Standing(s), s.rows, IdsOf(started.poller.todo)) == Sweep(Standing(s), s.rows)
  {
    started := PollerStep(s, StartSweep(order)).value;
    var todo := started.poller.todo;
    forall i | 0 <= i < |order|
      ensures order[i] in s.rows && !s.rows[order[i]].status.Terminal()
      ensures s.rows[order[i]].rayJobId.Some? ==> s.rows[order[i]].rayJobId.value in s.jobs
    {
      assert order[i] in order;
      assert ViewOk(models, s.now, ViewOf(s, order[i]));
    }
    SweepOfListed(Standing(s), s.rows, order, todo);
    assert todo[0..] == todo && IdsOf(todo[..0]) == {};
    SweepOfNone(Standing(s), s.rows);
  }

  lemma SweepOfListed(world: Answers, rows: Rows, order: seq<BatchId>, todo: seq<Snap>)
    requires IsListOf(order, rows) && |todo| == |order|
    requires forall i | 0 <= i < |order| :: todo[i].id == order[i]
    ensures SweepOf(world, rows, IdsOf(todo)) == Sweep(world, rows)
  {
    forall b ensures b in IdsOf(todo) <==> b in order {
      if b in order {
        var i :| 0 <= i < |order| && order[i] == b;
        assert todo[i].id == b;
      }
    }
    SweepOfActive(world, rows, IdsOf(todo));
  }

  /** Every undisturbed run of the poller stays on the way through the sweep's list. */
  lemma {:induction false} StaysMidway(models: Models, s: System, todo: seq<Snap>, started: System,
                                       actions: seq<Action>, t: System)
    requires Shows(s, todo) && Midway(s, todo, started)
    requires Run(models, started, actions) == Some(t) && forall a | a in actions :: Undisturbed(a)
    ensures Midway(s, todo, t)
  {
    if actions != [] {
      var last := |actions| - 1;
      var before := Run(models, started, actions[..last]).value;
      StaysMidway(models, s, todo, started, actions[..last], before);
      MidwayStep(s, todo, before, actions[last], t);
    }
  }

  /** From any reachable state between two sweeps, in whatever order the active rows are listed, every
      undisturbed sweep that comes to its end leaves the table that Sweep computes, and changes
      nothing else but a counter. */
  lemma UndisturbedSweep(models: Models, s: System, order: seq<BatchId>, actions: seq<Action>, s': System)
    requires Inv(models, s) && s.poller.Sleeping?
    requires Run(models, s, [StartSweep(order)] + actions) == Some(s')
    requires (forall a | a in actions :: Undisturbed(a)) && s'.poller.Sleeping?
    ensures s' == s.(rows := Sweep(Standing(s), s.rows), metrics := s'.metrics)
  {
    RunFrom(models, s, StartSweep(order), actions, s');
    var started := SweepStarts(models, s, order);
    var todo := started.poller.todo;
    StaysMidway(models, s, todo, started, actions, s');
    assert todo[..|todo|] == todo;
  }

  /** A run splits into its first action and the rest. */
  lemma RunFrom(models: Models, s: System, a: Action, rest: seq<Action>, s': System)
    requires Run(models, s, [a] + rest) == Some(s')
    ensures Step(models, s, a).Some? && Run(models, Step(models, s, a).value, rest) == Some(s')
  {
    RunOne(models, s, a);
    RunPrefix(models, s, [a], rest);
    RunConcat(models, s, [a], Step(models, s, a).value, rest);
  }

  lemma {:induction false} RunPrefix(models: Models, s: System, first: seq<Action>, second: seq<Action>)
    requires Run(models, s, first + second).Some?
    ensures Run(models, s, first).Some?
  {
    if second == [] {
      assert first + second == first;
    } else {
      var last := |second| - 1;
      assert (first + second)[..|first + second| - 1] == first + second[..last];
      RunPrefix(models, s, first, second[..last]);
    }
  }

  /** What such a sweep does to each row: an active attached one is written as Ray's answer and the markers call
      for, a running job's shows in_progress; every other row is as it was. */
  lemma UndisturbedSweepWrites(models: Models, s: System, order: seq<BatchId>, actions: seq<Action>, s': System,
                               b: BatchId)
    requires Inv(models, s) && s.poller.Sleeping?
    requires Run(models, s, [StartSweep(order)] + actions) == Some(s')
    requires (forall a | a in actions :: Undisturbed(a)) && s'.poller.Sleeping?
    requires b in s.rows
    ensures b in s'.rows
    ensures s.rows[b].status.Terminal() || s.rows[b].rayJobId.None? ==> s'.rows[b] == s.rows[b]
    ensures !s.rows[b].status.Terminal() && s.rows[b].rayJobId.Some? ==>
              var j := s.rows[b].rayJobId.value;
              && j in s.jobs && b in s.dirs
              && PollWrites(s.jobs[j].status, s.dirs[b].success, s.dirs[b].failed, s.now, s.rows[b], s'.rows[b])
              && (s.jobs[j].status.Pending? ==> s'.rows[b].status == Queued)
              && (s.jobs[j].status.Running? ==> s'.rows[b].status == InProgress)
  {
    UndisturbedSweep(models, s, order, actions, s');
    PollWritesThat(Standing(s), b, s.rows[b]);
    assert ViewOk(models, s.now, ViewOf(s, b));
  }

  // ---- There is such a sweep ----

  /** What an undisturbed poller does next. */
  function NextAction(p: Poller): Action
    requires !p.Sleeping?
  {
    match p
    case Sweeping(todo) => if todo == [] then EndSweep else if todo[0].job.None? then SkipUnattached else AskRay
    case Heard(_, _) => ReadMarkers
    case Deciding(_, _) => CommitUpdate
  }

  /** How many steps an undisturbed sweep still needs at most. */
  function StepsLeft(p: Poller): nat {
    if p.Sleeping? then 0
    else if p.Sweeping? then 3 * |p.todo| + 1
    else if p.Heard? then 3 * |p.todo|
    else if p.todo == [] then 0
    else 3 * |p.todo| - 1
  }

  lemma NextSweep(t: System) returns (t': System)
    requires t.poller.Sweeping? && (t.poller.todo != [] ==> t.poller.todo[0].job.None?)
    ensures PollerStep(t, NextAction(t.poller)) == Some(t') && StepsLeft(t'.poller) < StepsLeft(t.poller)
  {
    t' := SweepStep(t, NextAction(t.poller)).value;
  }

  lemma NextPoll(t: System) returns (t': System)
    requires !t.poller.Sleeping? && t.poller.todo != []
    requires t.poller.Sweeping? ==> t.poller.todo[0].job.Some? && t.poller.todo[0].job.value in t.jobs
    ensures PollerStep(t, NextAction(t.poller)) == Some(t') && StepsLeft(t'.poller) < StepsLeft(t.poller)
  {
    t' := PollStep(t, NextAction(t.poller)).value;
  }

  lemma NextIsEnabled(s: System, todo: seq<Snap>, t: System) returns (t': System)
    requires Shows(s, todo) && Midway(s, todo, t) && !t.poller.Sleeping?
    ensures Undisturbed(NextAction(t.poller)) && PollerStep(t, NextAction(t.poller)) == Some(t')
    ensures StepsLeft(t'.poller) < StepsLeft(t.poller)
  {
    if t.poller.Sweeping? && (t.poller.todo != [] ==> t.poller.todo[0].job.None?) {
      t' := NextSweep(t);
    } else {
      t' := NextPoll(t);
    }
  }

  lemma OnePollerStep(models: Models, t: System, a: Action, next: System, rest: seq<Action>, s': System)
    requires PollerAction(a) && PollerStep(t, a) == Some(next) && Run(models, next, rest) == Some(s')
    ensures Run(models, t, [a] + rest) == Some(s')
  {
    IsPollerStep(models, t, a);
    RunOne(models, t, a);
    RunConcat(models, t, [a], next, rest);
  }

  lemma {:induction false} SweepFinishes(models: Models, s: System, todo: seq<Snap>, t: System)
    returns (actions: seq<Action>, s': System)
    requires Shows(s, todo) && Midway(s, todo, t)
    ensures Run(models, t, actions) == Some(s') && s'.poller.Sleeping?
    ensures forall a | a in actions :: Undisturbed(a)
    decreases StepsLeft(t.poller)
  {
    if t.poller.Sleeping? {
      actions, s' := [], t;
    } else {
      var a := NextAction(t.poller);
      var next := NextIsEnabled(s, todo, t);
      MidwayStep(s, todo, t, a, next);
      var rest;
      rest, s' := SweepFinishes(models, s, todo, next);
      OnePollerStep(models, t, a, next, rest, s');
      actions := [a] + rest;
    }
  }

  /** The poller is never stuck: left alone between two sweeps, it can sweep in any order and sleep again. */
  lemma SweepExists(models: Models, s: System, order: seq<BatchId>)
    returns (actions: seq<Action>, s': System)
    requires Inv(models, s) && s.poller.Sleeping? && IsListOf(order, s.rows)
    ensures Run(models, s, [StartSweep(order)] + actions) == Some(s')
    ensures forall a | a in actions :: Undisturbed(a)
    ensures s' == s.(rows := Sweep(Standing(s), s.rows), metrics := s'.metrics)
  {
    var started := SweepStarts(models, s, order);
    actions, s' := SweepFinishes(models, s, started.poller.todo, started);
    RunOne(models, s, StartSweep(order));
    RunConcat(models, s, [StartSweep(order)], started, actions);
    UndisturbedSweep(models, s, order, actions, s');
  }

  // ---- What one sweep settles ----

  /** Ray's final answer for an active row is decided into a terminal update exactly when no torn `_FAILED`
      is in the way. */
  lemma DecisionSettlesIff(models: Models, now: int, v: View, row: Row)
    requires ViewOk(models, now, v) && v.row == Some(row) && row.rayJobId.Some? && !row.status.Terminal()
    requires v.job.value.status.Ended()
    ensures var decision := Decide(MapStatus(v.job.value.status), v.dir, row.inputCount, now);
            && (decision.Ok? <==> !TornMarker(v))
            && (decision.Ok? ==> UpdateRow(row, decision.value).status.Terminal())
  {
    var answer := MapStatus(v.job.value.status);
    DecideRaisesIff(models, now, v, Snap(v.batch, row.rayJobId, row.inputCount), answer);
    DecideTargets(answer, v.dir, row.inputCount, now);
  }

  /** The row of an ended job is settled by its poll exactly when no torn `_FAILED` is in the way. */
  lemma PollSettlesIff(models: Models, s: System, b: BatchId)
    requires Inv(models, s)
    requires b in s.rows && s.rows[b].rayJobId.Some? && !s.rows[b].status.Terminal()
    requires s.rows[b].rayJobId.value in s.jobs && s.jobs[s.rows[b].rayJobId.value].status.Ended()
    ensures PolledRow(Standing(s), b, s.rows[b]).status.Terminal() <==> !TornFailure(s, b)
  {
    var v, row := ViewOf(s, b), s.rows[b];
    assert ViewOk(models, s.now, v);
    assert v.dir == Get(s.dirs, b) && Standing(s).ray[row.rayJobId.value] == v.job.value.status;
    DecisionSettlesIff(models, s.now, v, row);
  }

  lemma AttachedHasJob(models: Models, s: System, b: BatchId)
    requires Inv(models, s) && b in s.rows && s.rows[b].rayJobId.Some?
    ensures s.rows[b].rayJobId.value in s.jobs
  {
    assert ViewOk(models, s.now, ViewOf(s, b));
  }

  /** Once every job has ended, every undisturbed sweep settles every row, except exactly those that
      were left without a job id and those with a torn `_FAILED`. */
  lemma OneSweepSettles(models: Models, before: seq<Action>, s: System, order: seq<BatchId>, actions: seq<Action>,
                        s': System)
    requires Run(models, INITIAL, before) == Some(s) && s.poller.Sleeping?
    requires Run(models, s, [StartSweep(order)] + actions) == Some(s')
    requires (forall a | a in actions :: Undisturbed(a)) && s'.poller.Sleeping?
    requires forall j | j in s.jobs :: s.jobs[j].status.Ended()
    ensures s'.rows.Keys == s.rows.Keys
    ensures forall b | b in s.rows ::
              s'.rows[b].status.Terminal() <==>
              s.rows[b].status.Terminal() || (s.rows[b].rayJobId.Some? && !TornFailure(s, b))
  {
    ReachableOk(models, before, s);
    UndisturbedSweep(models, s, order, actions, s');
    forall b | b in s.rows
      ensures s'.rows[b].status.Terminal() <==>
              s.rows[b].status.Terminal() || (s.rows[b].rayJobId.Some? && !TornFailure(s, b))
    {
      if !s.rows[b].status.Terminal() && s.rows[b].rayJobId.Some? {
        AttachedHasJob(models, s, b);
        PollSettlesIff(models, s, b);
      }
    }
  }
}
