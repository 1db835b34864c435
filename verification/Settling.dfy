/** Sweeps among everything else: while handlers, readers, Ray and workers go on, a row whose job has
    ended before the poller asks about it is settled by that poll. */
module Settling {
  import opened Wrappers
  import opened Domain
  import opened Table
  import opened Protocol
  import opened Invariant
  import opened Preservation
  import opened Lifecycle

  /** The sweep still has to poll the row at place `i` of its list: Ray was not asked about it yet, or
      has answered that its job ended. */
  predicate DueAt(p: Poller, b: BatchId, i: nat) {
    && i < |Todo(p)| && Todo(p)[i].id == b && Todo(p)[i].job.Some?
    && (i == 0 && p.Heard? ==> p.answer.Terminal())
    && (i == 0 && p.Deciding? ==> p.update.Target().Terminal())
  }

  ghost predicate Due(p: Poller, b: BatchId) {
    exists i: nat :: DueAt(p, b, i)
  }

  /** The row is terminal, or its batch is the one kind that is never reported. */
  predicate Settled(s: System, b: BatchId) {
    b in s.rows && (s.rows[b].status.Terminal() || TornFailure(s, b))
  }

  /** While the poller is at an earlier row, the row keeps its turn. */
  lemma LaterStaysDue(s: System, a: Action, s': System, b: BatchId, i: nat)
    requires PollerAction(a) && PollerStep(s, a) == Some(s') && DueAt(s.poller, b, i) && i > 0
    ensures DueAt(s'.poller, b, i) || DueAt(s'.poller, b, i - 1)
  {
    var todo := Todo(s.poller);
    assert todo[i] == todo[1..][i - 1];
  }

  lemma AskingStaysDue(models: Models, s: System, s': System, b: BatchId)
    requires Inv(models, s) && PollerStep(s, AskRay) == Some(s')
    requires DueAt(s.poller, b, 0) && JobEnded(ViewOf(s, b))
    ensures DueAt(s'.poller, b, 0)
  {
    assert SnapOk(ViewOf(s, b), Todo(s.poller)[0]) && ViewOk(models, s.now, ViewOf(s, b));
  }

  /** Reading the markers decides on a terminal update, unless `_FAILED` is torn. */
  lemma ReadingSettles(models: Models, s: System, s': System, b: BatchId)
    requires Inv(models, s) && PollerStep(s, ReadMarkers) == Some(s')
    requires DueAt(s.poller, b, 0) && JobEnded(ViewOf(s, b))
    ensures DueAt(s'.poller, b, 0) || TornFailure(s, b)
  {
    var v, snap := ViewOf(s, b), Todo(s.poller)[0];
    assert SnapOk(v, snap) && ViewOk(models, s.now, v);
    assert v.dir == Get(s.dirs, b);
    DecideRaisesIff(models, s.now, v, snap, s.poller.answer);
    DecideTargets(s.poller.answer, v.dir, snap.inputCount, s.now);
  }

  lemma CommittingSettles(s: System, s': System, b: BatchId)
    requires PollerOk(s) && PollerStep(s, CommitUpdate) == Some(s') && DueAt(s.poller, b, 0)
    ensures b in s'.rows && s'.rows[b].status.Terminal()
  {
    assert SnapOk(ViewOf(s, b), Todo(s.poller)[0]);
    CommitShape(s, s');
  }

  lemma TurnSettles(models: Models, s: System, a: Action, s': System, b: BatchId)
    requires Inv(models, s) && PollerAction(a) && PollerStep(s, a) == Some(s')
    requires DueAt(s.poller, b, 0) && JobEnded(ViewOf(s, b)) && !a.GiveUp? && !a.LoseUpdate?
    ensures DueAt(s'.poller, b, 0) || Settled(s', b)
  {
    if a.AskRay? {
      AskingStaysDue(models, s, s', b);
    } else if a.ReadMarkers? {
      ReadingSettles(models, s, s', b);
      PollerIsQuiet(s, a, s');
      assert ViewOf(s', b) == ViewOf(s, b);
    } else if a.CommitUpdate? {
      CommittingSettles(s, s', b);
    }
  }

  lemma RayKeepsPoller(models: Models, s: System, a: Action, s': System)
    requires !HandlerAction(a) && !PollerAction(a) && !ReaderAction(a) && !a.Restart?
    requires RayStep(models, s, a) == Some(s')
    ensures s'.poller == s.poller
  {
  }

  lemma OthersKeepPoller(models: Models, s: System, a: Action, s': System)
    requires Step(models, s, a) == Some(s') && !PollerAction(a) && !a.Restart?
    ensures s'.poller == s.poller
  {
    if HandlerAction(a) {
      IsHandlerStep(models, s, a);
      HandlerIsLocal(s, a, s', a.b);
    } else if ReaderAction(a) {
      IsReaderStep(models, s, a);
      ReaderIsLocal(s, a, s');
    } else {
      RayKeepsPoller(models, s, a, s');
    }
  }

  /** The poller is at the row of `b`. */
  predicate AtHead(s: Option<System>, b: BatchId) {
    s.Some? && Todo(s.value.poller) != [] && Todo(s.value.poller)[0].id == b
  }

  /** The step neither stops the API nor gives up on the row's poll nor loses its commit. */
  predicate Spares(s: Option<System>, a: Action, b: BatchId) {
    !a.Restart? && ((a.GiveUp? || a.LoseUpdate?) ==> !AtHead(s, b))
  }

  lemma PollerDueStep(models: Models, s: System, a: Action, s': System, b: BatchId, i: nat)
    requires Inv(models, s) && PollerAction(a) && PollerStep(s, a) == Some(s') && Spares(Some(s), a, b)
    requires DueAt(s.poller, b, i) && JobEnded(ViewOf(s, b))
    ensures Due(s'.poller, b) || Settled(s', b)
  {
    if i > 0 {
      LaterStaysDue(s, a, s', b, i);
    } else {
      TurnSettles(models, s, a, s', b);
    }
  }

  lemma PollerTurn(models: Models, s: System, a: Action, s': System, b: BatchId)
    requires Inv(models, s) && PollerAction(a) && PollerStep(s, a) == Some(s') && Spares(Some(s), a, b)
    requires Due(s.poller, b) && JobEnded(ViewOf(s, b))
    ensures Due(s'.poller, b) || Settled(s', b)
  {
    var i: nat :| DueAt(s.poller, b, i);
    PollerDueStep(models, s, a, s', b, i);
  }

  lemma DueStep(models: Models, s: System, a: Action, s': System, b: BatchId)
    requires Inv(models, s) && Step(models, s, a) == Some(s') && Spares(Some(s), a, b)
    requires Due(s.poller, b) && JobEnded(ViewOf(s, b))
    ensures Due(s'.poller, b) || Settled(s', b)
  {
    if PollerAction(a) {
      IsPollerStep(models, s, a);
      PollerTurn(models, s, a, s', b);
    } else {
      OthersKeepPoller(models, s, a, s');
    }
  }

  lemma SettledStays(models: Models, s: System, a: Action, s': System, b: BatchId)
    requires Inv(models, s) && Step(models, s, a) == Some(s') && Settled(s, b)
    ensures Settled(s', b)
  {
    StepAdvances(models, s, a, s', b);
    if TornFailure(s, b) {
      TornFailureStep(models, s, a, s', b);
    }
  }

  ghost predicate Spared(models: Models, s: System, actions: seq<Action>, b: BatchId) {
    forall i | 0 <= i < |actions| :: Spares(Run(models, s, actions[..i]), actions[i], b)
  }

  lemma SparedPrefix(models: Models, s: System, actions: seq<Action>, b: BatchId)
    requires Spared(models, s, actions, b) && actions != []
    ensures Spared(models, s, actions[..|actions| - 1], b)
  {
    var prefix := actions[..|actions| - 1];
    forall i | 0 <= i < |prefix| ensures Spares(Run(models, s, prefix[..i]), prefix[i], b) {
      assert prefix[i] == actions[i] && prefix[..i] == actions[..i];
    }
  }

  lemma {:induction false} DueUntilSettled(models: Models, s: System, actions: seq<Action>, s': System, b: BatchId)
    requires Inv(models, s) && Due(s.poller, b) && JobEnded(ViewOf(s, b))
    requires Run(models, s, actions) == Some(s') && Spared(models, s, actions, b)
    ensures Inv(models, s') && JobEnded(ViewOf(s', b))
    ensures Due(s'.poller, b) || Settled(s', b)
  {
    if actions != [] {
      var last := |actions| - 1;
      var before := Run(models, s, actions[..last]).value;
      SparedPrefix(models, s, actions, b);
      DueUntilSettled(models, s, actions[..last], before, b);
      StepKeepsInv(models, before, actions[last], s');
      EndedAfterStep(models, before, actions[last], s', b);
      if Settled(before, b) {
        SettledStays(models, before, actions[last], s', b);
      } else {
        assert Spares(Run(models, s, actions[..last]), actions[last], b);
        DueStep(models, before, actions[last], s', b);
      }
    }
  }

  /** The row is terminal with the status its job ended in, exactly if no torn `_FAILED` is in the way. */
  predicate EndedRow(row: Row, job: Job, torn: bool) {
    && (row.status.Terminal() <==> !torn)
    && (row.status.Terminal() ==> row.status == MapStatus(job.status))
  }

  lemma SettledMeans(models: Models, now: int, v: View)
    requires ViewOk(models, now, v) && JobEnded(v) && (v.row.value.status.Terminal() || TornMarker(v))
    ensures EndedRow(v.row.value, v.job.value, TornMarker(v))
  {
  }

  /** In any interleaving: if a sweep lists a row whose job has ended by the time the poller asks about
      it, then once the poller is past the row it is settled; unless the API stopped, that poll gave up
      or its commit was lost. */
  lemma AskedAfterEndIsSettled(models: Models, before: seq<Action>, s: System, after: seq<Action>, s': System, b: BatchId)
    requires Run(models, INITIAL, before) == Some(s) && Due(s.poller, b) && JobEnded(ViewOf(s, b))
    requires Run(models, s, after) == Some(s') && Spared(models, s, after, b)
    requires forall i | 0 <= i < |Todo(s'.poller)| :: Todo(s'.poller)[i].id != b
    ensures JobEnded(ViewOf(s', b))
    ensures EndedRow(ViewOf(s', b).row.value, ViewOf(s', b).job.value, TornMarker(ViewOf(s', b)))
  {
    ReachableOk(models, before, s);
    DueUntilSettled(models, s, after, s', b);
    assert ViewOk(models, s'.now, ViewOf(s', b));
    SettledMeans(models, s'.now, ViewOf(s', b));
  }
}
