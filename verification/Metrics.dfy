/** What the three batch counters count, exactly, in every run. */
module Metrics {
  import opened Wrappers
  import opened Domain
  import opened Table
  import opened Protocol
  import opened Invariant
  import opened Preservation

  const HasJob: Row -> bool := (row: Row) => row.rayJobId.Some?
  const TerminalWithJob: Row -> bool := (row: Row) => row.rayJobId.Some? && row.status.Terminal()
  const FailedWithoutJob: Row -> bool := (row: Row) => row.rayJobId.None? && row.status == Failed

  ghost function One(b: bool): nat {
    if b then 1 else 0
  }

  lemma CountUpdate<K, V>(m: map<K, V>, k: K, v: V, p: V -> bool)
    ensures Count(m[k := v], p) + One(k in m && p(m[k])) == Count(m, p) + One(p(v))
  {
    var before, after := KeysWhere(m, p), KeysWhere(m[k := v], p);
    if p(v) {
      assert after == before + {k};
    } else {
      assert after == before - {k};
    }
  }

  lemma CountRemove<K, V>(m: map<K, V>, k: K, p: V -> bool)
    ensures Count(m - {k}, p) + One(k in m && p(m[k])) == Count(m, p)
  {
    assert KeysWhere(m - {k}, p) == KeysWhere(m, p) - {k};
  }

  lemma CountNone<K, V>(p: V -> bool)
    ensures Count<K, V>(map[], p) == 0
  {
  }

  /** The exact account. A counter with what restarts made it forget equals the rows it is about,
      corrected by the handlers and commits that stand, or were lost, between the two writes. */
  ghost predicate Balanced(s: System) {
    && s.metrics.terminal + s.ledger.forgotten.terminal
       == Count(s.rows, TerminalWithJob) + s.ledger.terminalUncommitted
    && s.metrics.submitted + s.ledger.forgotten.submitted
       + Count(s.handlers, IsJobAttached) + s.ledger.attachedUncounted
       == Count(s.rows, HasJob)
    && s.metrics.submitFailures + s.ledger.forgotten.submitFailures
       == Count(s.rows, FailedWithoutJob) + Count(s.handlers, IsFailureCounted) + s.ledger.countedUnmarked
  }

  lemma HandlerCounts(handlers: map<BatchId, Handler>, b: BatchId, h: Handler)
    ensures Count(handlers[b := h], IsJobAttached) + One(b in handlers && handlers[b].JobAttached?)
         == Count(handlers, IsJobAttached) + One(h.JobAttached?)
    ensures Count(handlers[b := h], IsFailureCounted) + One(b in handlers && handlers[b].FailureCounted?)
         == Count(handlers, IsFailureCounted) + One(h.FailureCounted?)
  {
    CountUpdate(handlers, b, h, IsJobAttached);
    CountUpdate(handlers, b, h, IsFailureCounted);
  }

  lemma HandlerGoneCounts(handlers: map<BatchId, Handler>, b: BatchId)
    ensures Count(handlers - {b}, IsJobAttached) + One(b in handlers && handlers[b].JobAttached?)
         == Count(handlers, IsJobAttached)
    ensures Count(handlers - {b}, IsFailureCounted) + One(b in handlers && handlers[b].FailureCounted?)
         == Count(handlers, IsFailureCounted)
  {
    CountRemove(handlers, b, IsJobAttached);
    CountRemove(handlers, b, IsFailureCounted);
  }

  lemma RowCounts(rows: Rows, b: BatchId, row: Row)
    ensures Count(rows[b := row], TerminalWithJob) + One(b in rows && TerminalWithJob(rows[b]))
         == Count(rows, TerminalWithJob) + One(TerminalWithJob(row))
    ensures Count(rows[b := row], HasJob) + One(b in rows && HasJob(rows[b]))
         == Count(rows, HasJob) + One(HasJob(row))
    ensures Count(rows[b := row], FailedWithoutJob) + One(b in rows && FailedWithoutJob(rows[b]))
         == Count(rows, FailedWithoutJob) + One(FailedWithoutJob(row))
  {
    CountUpdate(rows, b, row, TerminalWithJob);
    CountUpdate(rows, b, row, HasJob);
    CountUpdate(rows, b, row, FailedWithoutJob);
  }

  /** A handler's commit of a row and its increment of a counter are separate steps; the account
      holds between them too. */
  lemma InsertingBalanced(models: Models, s: System, a: Action, s': System)
    requires Inv(models, s) && Balanced(s) && a.CommitRow? && SubmitStep(s, a) == Some(s')
    ensures Balanced(s')
  {
    HandlerCounts(s.handlers, a.b, RowCommitted);
    RowCounts(s.rows, a.b, s'.rows[a.b]);
  }

  lemma AttachingBalanced(models: Models, s: System, a: Action, s': System)
    requires Inv(models, s) && Balanced(s) && a.CommitJobId? && RecordStep(s, a) == Some(s')
    ensures Balanced(s')
  {
    assert ViewOk(models, s.now, ViewOf(s, a.b));
    HandlerCounts(s.handlers, a.b, JobAttached);
    RowCounts(s.rows, a.b, s'.rows[a.b]);
  }

  lemma CommitFailedBalanced(models: Models, s: System, a: Action, s': System)
    requires Inv(models, s) && Balanced(s) && a.CommitFailed? && RecordStep(s, a) == Some(s')
    ensures Balanced(s')
  {
    assert ViewOk(models, s.now, ViewOf(s, a.b));
    HandlerGoneCounts(s.handlers, a.b);
    RowCounts(s.rows, a.b, s'.rows[a.b]);
  }

  lemma MovingBalanced(s: System, a: Action, s': System)
    requires Balanced(s) && HandlerAction(a) && HandlerStep(s, a) == Some(s')
    requires !a.CommitRow? && !a.CommitJobId? && !a.CommitFailed? && !a.Respond? && !a.DropHandler?
    requires a.Post? ==> a.b !in s.handlers
    ensures Balanced(s')
  {
    HandlerCounts(s.handlers, a.b, s'.handlers[a.b]);
    assert s'.handlers == s.handlers[a.b := s'.handlers[a.b]];
    assert s'.rows == s.rows && s'.ledger == s.ledger;
  }

  lemma LeavingBalanced(s: System, a: Action, s': System)
    requires Balanced(s) && HandlerAction(a) && HandlerStep(s, a) == Some(s') && (a.Respond? || a.DropHandler?)
    ensures Balanced(s')
  {
    HandlerGoneCounts(s.handlers, a.b);
    assert s'.handlers == s.handlers - {a.b};
    assert s'.rows == s.rows && s'.metrics == s.metrics && s'.ledger.forgotten == s.ledger.forgotten;
  }

  lemma PolledRowIsActive(s: System)
    requires PollerOk(s) && s.poller.Deciding?
    ensures s.poller.todo != [] && s.poller.todo[0].id in s.rows
    ensures var row := s.rows[s.poller.todo[0].id]; row.rayJobId.Some? && !row.status.Terminal()
  {
    var snap := Todo(s.poller)[0];
    assert SnapOk(ViewOf(s, snap.id), snap);
  }

  lemma CommitCounts(s: System, s': System)
    requires PollerStep(s, CommitUpdate) == Some(s') && s.poller.todo[0].id in s.rows
    ensures var b, u := s.poller.todo[0].id, s.poller.update;
            && s'.rows == s.rows[b := UpdateRow(s.rows[b], u)]
            && s'.metrics == s.metrics.(terminal := s.metrics.terminal + One(u.Target().Terminal()))
    ensures s'.handlers == s.handlers && s'.ledger == s.ledger
  {
  }

  lemma UpdateBalanced(s: System, s': System)
    requires PollerOk(s) && Balanced(s) && PollerStep(s, CommitUpdate) == Some(s')
    ensures Balanced(s')
  {
    PolledRowIsActive(s);
    CommitCounts(s, s');
    var b := s.poller.todo[0].id;
    RowCounts(s.rows, b, UpdateRow(s.rows[b], s.poller.update));
  }

  lemma QuietBalanced(s: System, a: Action, s': System)
    requires Balanced(s) && PollerAction(a) && !a.CommitUpdate? && PollerStep(s, a) == Some(s')
    ensures Balanced(s')
  {
    QuietShape(s, a, s');
    assert s'.metrics.terminal + s.ledger.terminalUncommitted == s.metrics.terminal + s'.ledger.terminalUncommitted;
    assert s'.metrics.submitted == s.metrics.submitted && s'.metrics.submitFailures == s.metrics.submitFailures;
    assert s'.ledger == s.ledger.(terminalUncommitted := s'.ledger.terminalUncommitted);
  }

  lemma RestartBalanced(s: System)
    requires Balanced(s)
    ensures Balanced(Restarted(s))
  {
    CountNone<BatchId, Handler>(IsJobAttached);
    CountNone<BatchId, Handler>(IsFailureCounted);
  }

  lemma HandlerBalanced(models: Models, s: System, a: Action, s': System)
    requires Inv(models, s) && Balanced(s) && HandlerAction(a) && HandlerStep(s, a) == Some(s')
    ensures Balanced(s')
  {
    if a.CommitRow? {
      InsertingBalanced(models, s, a, s');
    } else if a.CommitJobId? {
      AttachingBalanced(models, s, a, s');
    } else if a.CommitFailed? {
      CommitFailedBalanced(models, s, a, s');
    } else if a.Respond? || a.DropHandler? {
      LeavingBalanced(s, a, s');
    } else {
      if a.Post? {
        assert ViewOk(models, s.now, ViewOf(s, a.b));
      }
      MovingBalanced(s, a, s');
    }
  }

  lemma RayBalanced(models: Models, s: System, a: Action, s': System)
    requires Balanced(s) && !HandlerAction(a) && !PollerAction(a) && !ReaderAction(a)
    requires RayStep(models, s, a) == Some(s')
    ensures Balanced(s')
  {
    if a.Restart? {
      RestartBalanced(s);
    } else {
      assert s'.rows == s.rows && s'.handlers == s.handlers && s'.metrics == s.metrics && s'.ledger == s.ledger;
    }
  }

  /** The account balances in every reachable state, after any number of lost commits and restarts. */
  lemma StepBalanced(models: Models, s: System, a: Action, s': System)
    requires Inv(models, s) && Balanced(s) && Step(models, s, a) == Some(s')
    ensures Balanced(s')
  {
    if HandlerAction(a) {
      IsHandlerStep(models, s, a);
      HandlerBalanced(models, s, a, s');
    } else if a.CommitUpdate? {
      IsPollerStep(models, s, a);
      UpdateBalanced(s, s');
    } else if PollerAction(a) {
      IsPollerStep(models, s, a);
      QuietBalanced(s, a, s');
    } else if ReaderAction(a) {
      IsReaderStep(models, s, a);
      ReaderIsLocal(s, a, s');
    } else {
      RayBalanced(models, s, a, s');
    }
  }

  lemma {:induction false} MetricsBalance(models: Models, actions: seq<Action>, s: System)
    requires Run(models, INITIAL, actions) == Some(s)
    ensures Inv(models, s) && Balanced(s)
  {
    if actions == [] {
      InitialOk(models);
      InitiallyBalanced();
    } else {
      var last := |actions| - 1;
      var before := Run(models, INITIAL, actions[..last]).value;
      MetricsBalance(models, actions[..last], before);
      StepKeepsInv(models, before, actions[last], s);
      StepBalanced(models, before, actions[last], s);
    }
  }

  lemma InitiallyBalanced()
    ensures Balanced(INITIAL)
  {
    CountNone<BatchId, Handler>(IsJobAttached);
    CountNone<BatchId, Handler>(IsFailureCounted);
    CountNone<BatchId, Row>(HasJob);
    CountNone<BatchId, Row>(TerminalWithJob);
    CountNone<BatchId, Row>(FailedWithoutJob);
  }

  // ---- Runs without losses ----

  /** No restart, no lost commit of the poller, no handler lost between its two writes. */
  ghost predicate Lossless(models: Models, actions: seq<Action>) {
    forall i | 0 <= i < |actions| ::
      && !actions[i].Restart? && !actions[i].LoseUpdate?
      && (actions[i].DropHandler? ==> LosesNothing(Run(models, INITIAL, actions[..i]), actions[i].b))
  }

  predicate LosesNothing(s: Option<System>, b: BatchId) {
    s.Some? && b in s.value.handlers ==>
      !s.value.handlers[b].JobAttached? && !s.value.handlers[b].FailureCounted?
  }

  lemma LosslessPrefix(models: Models, actions: seq<Action>)
    requires Lossless(models, actions) && actions != []
    ensures Lossless(models, actions[..|actions| - 1])
  {
    var prefix := actions[..|actions| - 1];
    forall i | 0 <= i < |prefix|
      ensures && !prefix[i].Restart? && !prefix[i].LoseUpdate?
              && (prefix[i].DropHandler? ==> LosesNothing(Run(models, INITIAL, prefix[..i]), prefix[i].b))
    {
      assert prefix[i] == actions[i] && prefix[..i] == actions[..i];
    }
  }

  lemma LosslessHandlerStep(s: System, a: Action, s': System)
    requires HandlerAction(a) && HandlerStep(s, a) == Some(s') && (a.DropHandler? ==> LosesNothing(Some(s), a.b))
    ensures s'.ledger == s.ledger
  {
  }

  lemma LosslessPollerStep(s: System, a: Action, s': System)
    requires PollerAction(a) && !a.LoseUpdate? && PollerStep(s, a) == Some(s')
    ensures s'.ledger == s.ledger
  {
  }

  lemma LosslessStep(models: Models, s: System, a: Action, s': System)
    requires Step(models, s, a) == Some(s')
    requires !a.Restart? && !a.LoseUpdate? && (a.DropHandler? ==> LosesNothing(Some(s), a.b))
    ensures s'.ledger == s.ledger
  {
    if HandlerAction(a) {
      LosslessHandlerStep(s, a, s');
    } else if PollerAction(a) {
      LosslessPollerStep(s, a, s');
    } else if ReaderAction(a) {
      ReaderIsLocal(s, a, s');
    }
  }

  lemma {:induction false} LosslessLedger(models: Models, actions: seq<Action>, s: System)
    requires Run(models, INITIAL, actions) == Some(s) && Lossless(models, actions)
    ensures s.ledger == INITIAL.ledger
  {
    if actions != [] {
      var last := |actions| - 1;
      var before := Run(models, INITIAL, actions[..last]).value;
      LosslessPrefix(models, actions);
      LosslessLedger(models, actions[..last], before);
      LosslessStep(models, before, actions[last], s);
    }
  }

  /** In a run without losses the counters are what their names say, up to handlers that stand
      between a commit and its increment. */
  lemma CountersAreExact(models: Models, actions: seq<Action>, s: System)
    requires Run(models, INITIAL, actions) == Some(s) && Lossless(models, actions)
    ensures s.metrics.terminal == Count(s.rows, TerminalWithJob)
    ensures s.metrics.submitted + Count(s.handlers, IsJobAttached) == Count(s.rows, HasJob)
    ensures s.metrics.submitFailures == Count(s.rows, FailedWithoutJob) + Count(s.handlers, IsFailureCounted)
  {
    MetricsBalance(models, actions, s);
    LosslessLedger(models, actions, s);
  }
}
