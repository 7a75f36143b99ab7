/** Fencing: retried completions behave as if each had been delivered at most once, and a cancel
    acknowledgement always answers a cancel request made under its own token. */
module FleetFence {
  import opened Rows
  import opened Fleet
  import opened FleetLease
  import opened FleetHistory

  /** The delivery of a completion that the fence turns away. */
  predicate TurnedAway(s: World, step: Step) {
    step.Deliver? && step.m.Outcome? && (step.m in s.wire ==>
      !Accepts(s.db, step.m.id, Complete(step.m.token, step.m.kind, step.m.data, step.at, step.retryAt)))
  }

  /** The schedule without the completion deliveries that were turned away. */
  function Once(steps: seq<Step>): seq<Step>
    decreases |steps|
  {
    if steps == [] then []
    else
      var before := steps[..|steps| - 1];
      var step := steps[|steps| - 1];
      if TurnedAway(Exec(Start, before), step) then Once(before) else Once(before) + [step]
  }

  /** How often a completion of token t is delivered. */
  function Deliveries(steps: seq<Step>, t: Token): nat
    decreases |steps|
  {
    if steps == [] then 0
    else
      var step := steps[|steps| - 1];
      Deliveries(steps[..|steps| - 1], t) + (if step.Deliver? && step.m.Outcome? && step.m.token == t then 1 else 0)
  }

  lemma TurnedAwayChangesNothing(s: World, step: Step)
    requires TurnedAway(s, step)
    ensures Next(s, step) == s
  {
  }

  /** A completion that is not turned away ends its token. */
  lemma DeliveredEndsItsToken(s: World, step: Step, t: Token)
    requires step.Deliver? && step.m.Outcome? && !TurnedAway(s, step)
    ensures Endings(Next(s, step).db.log, t) == Endings(s.db.log, t) + (if step.m.token == t then 1 else 0)
  {
    var op := Complete(step.m.token, step.m.kind, step.m.data, step.at, step.retryAt);
    var found := Find(s.db.rows, step.m.id);
    Appended(s.db.log, Entry(step.m.id, op, found, Apply(op, found).row));
  }

  lemma EndingsOnlyGrow(db: Db, sql: Sql, t: Token)
    ensures Endings(db.log, t) <= Endings(Run(db, sql).log, t)
  {
    if sql.Sql? && Apply(sql.op, Find(db.rows, sql.id)).Wrote? {
      var found := Find(db.rows, sql.id);
      Appended(db.log, Entry(sql.id, sql.op, found, Apply(sql.op, found).row));
    }
  }

  lemma {:induction false} OnceIsTheSameRun(steps: seq<Step>, t: Token)
    ensures Exec(Start, Once(steps)) == Exec(Start, steps)
    ensures Deliveries(Once(steps), t) <= Endings(Exec(Start, steps).db.log, t)
    decreases |steps|
  {
    hide Local;
    hide Query;
    hide TurnedAway;
    if steps != [] {
      var before := steps[..|steps| - 1];
      var step := steps[|steps| - 1];
      var s := Exec(Start, before);
      OnceIsTheSameRun(before, t);
      if TurnedAway(s, step) {
        TurnedAwayChangesNothing(s, step);
      } else {
        var kept := Once(before) + [step];
        assert kept[..|kept| - 1] == Once(before);
        if step.Deliver? && step.m.Outcome? { DeliveredEndsItsToken(s, step, t); }
        else { EndingsOnlyGrow(s.db, Query(s, step), t); }
      }
    }
  }

  /** Retries refine apply-once: with every retried, reordered or late completion, each schedule ends
      exactly where a schedule ends that delivers at most one completion per token. */
  lemma RetriesRefineApplyOnce(steps: seq<Step>, t: Token)
    ensures Exec(Start, Once(steps)) == Exec(Start, steps)
    ensures Deliveries(Once(steps), t) <= 1
  {
    OnceIsTheSameRun(steps, t);
    TokensAreSpentOnce(steps, t);
  }

  /** Once a token has ended, no later statement that carries it changes or publishes anything. */
  lemma EndedTokensAreInert(steps: seq<Step>, t: Token, id: Id, op: Op)
    requires Endings(Exec(Start, steps).db.log, t) > 0
    requires (op.Complete? || op.Beat? || op.Progress?) && op.token == t
    ensures Write(Exec(Start, steps).db, id, op) == Exec(Start, steps).db
  {
    RunsKeepHistory(steps);
    var db := Exec(Start, steps).db;
    assert SpentOnce(db, t);
    if id in db.rows { assert TokenOk(db, id); }
  }

  // --------------------------------------------------------------------------------- cancellation

  predicate FlaggedRow(db: Db, t: Token) {
    t < |db.issued| && (Current(db, t) ==> db.rows[db.issued[t].id].cancelRequestedAt.Some?)
  }

  /** Causes, replies and acknowledgements of a cancel all stem from a request under that token. */
  ghost predicate CancelOk(s: World) {
    && (forall t | t in s.db.flagged :: FlaggedRow(s.db, t))
    && (forall id | id in s.db.rows && s.db.rows[id].state.Running? && s.db.rows[id].cancelRequestedAt.Some? ::
          s.db.rows[id].token.Some? && s.db.rows[id].token.value in s.db.flagged)
    && (forall r | r in s.replies && r.Confirmed? && r.flagged :: r.token in s.db.flagged)
    && (forall t | t in s.attempts && s.attempts[t].cause == Some(ByCancel) :: t in s.db.flagged)
    && (forall m | m in s.wire && m.Outcome? && m.kind.Cancel? :: m.token in s.db.flagged)
  }

  lemma RunKeepsFlagged(db: Db, sql: Sql, t: Token)
    requires RowsOk(db) && SqlOk(db, sql)
    requires t in db.flagged ==> FlaggedRow(db, t)
    ensures t in Run(db, sql).flagged ==> FlaggedRow(Run(db, sql), t)
    ensures t in db.flagged ==> t in Run(db, sql).flagged
  {
    if sql.Sql? && sql.id in db.rows { assert TokenOk(db, sql.id) && Shaped(db.rows[sql.id]); }
  }

  lemma RunKeepsFlaggedRows(db: Db, sql: Sql, id: Id)
    requires RowsOk(db) && SqlOk(db, sql)
    requires forall i | i in db.rows && db.rows[i].state.Running? && db.rows[i].cancelRequestedAt.Some? ::
      db.rows[i].token.Some? && db.rows[i].token.value in db.flagged
    ensures var d := Run(db, sql);
      id in d.rows && d.rows[id].state.Running? && d.rows[id].cancelRequestedAt.Some? ==>
        d.rows[id].token.Some? && d.rows[id].token.value in d.flagged
  {
    if sql.Sql? && sql.id in db.rows { assert TokenOk(db, sql.id) && Shaped(db.rows[sql.id]); }
  }

  lemma RunKeepsCancel(s: World, sql: Sql)
    requires RowsOk(s.db) && CancelOk(s) && SqlOk(s.db, sql)
    ensures CancelOk(s.(db := Run(s.db, sql)))
  {
    var d := Run(s.db, sql);
    forall t ensures t in d.flagged ==> FlaggedRow(d, t) { RunKeepsFlagged(s.db, sql, t); }
    forall t ensures t in s.db.flagged ==> t in d.flagged { RunKeepsFlagged(s.db, sql, t); }
    forall id ensures id in d.rows && d.rows[id].state.Running? && d.rows[id].cancelRequestedAt.Some? ==>
        d.rows[id].token.Some? && d.rows[id].token.value in d.flagged
    { RunKeepsFlaggedRows(s.db, sql, id); }
  }

  /** Nothing but phases, times, replies that answer truly and outcomes that are owed. */
  predicate SameCauses(s: World, s': World) {
    && s'.db == s.db
    && (forall t | t in s'.attempts :: s'.attempts[t].cause == Some(ByCancel) ==> t in s.db.flagged)
    && (forall r | r in s'.replies && r.Confirmed? && r.flagged :: r in s.replies || r.token in s.db.flagged)
    && (forall m | m in s'.wire && m.Outcome? && m.kind.Cancel? :: m in s.wire || m.token in s.db.flagged)
  }

  lemma SameCausesKeep(s: World, s': World)
    requires CancelOk(s) && SameCauses(s, s')
    ensures CancelOk(s')
  {
  }

  lemma ClaimStepsKeepCauses(s: World, step: Step)
    requires CancelOk(s)
    requires step.ClaimBegin? || step.ClaimRow? || step.ClaimAnswered? || step.ClaimLost? || step.StartOne? || step.StartsDone?
          || step.ReleaseUnstarted? || step.OrphanScan? || step.LateScan? || step.OrphansDone?
    ensures SameCauses(s, Local(s, step))
  {
    hide Accepts, KeyFree, IsOrphan, Unlisted;
  }

  lemma ReplyStepsKeepCauses(s: World, step: Step)
    requires RowsOk(s.db) && CancelOk(s) && (step.Renew? || step.Deliver? || step.Receive?)
    ensures SameCauses(s, Local(s, step))
  {
    if step.Deliver? && step.m in s.wire && step.m.Renewal? {
      assert step.m.id in s.db.rows ==> TokenOk(s.db, step.m.id);
    }
  }

  lemma AttemptStepsKeepCauses(s: World, step: Step)
    requires CancelOk(s)
    requires step.Report? || step.Sweep? || step.StopFor? || step.Submit? || step.Settle? || step.Retire?
    ensures SameCauses(s, Local(s, step))
  {
    hide Accepts;
  }

  lemma LocalKeepsCancel(s: World, step: Step)
    requires RowsOk(s.db) && CancelOk(s)
    ensures CancelOk(Local(s, step))
  {
    if step.ClaimBegin? || step.ClaimRow? || step.ClaimAnswered? || step.ClaimLost? || step.StartOne? || step.StartsDone?
       || step.ReleaseUnstarted? || step.OrphanScan? || step.LateScan? || step.OrphansDone? {
      ClaimStepsKeepCauses(s, step);
    } else if step.Renew? || step.Deliver? || step.Receive? {
      ReplyStepsKeepCauses(s, step);
    } else if step.Report? || step.Sweep? || step.StopFor? || step.Submit? || step.Settle? || step.Retire? {
      AttemptStepsKeepCauses(s, step);
    } else {
      assert SameCauses(s, Local(s, step));
    }
    hide Local, CancelOk, SameCauses;
    SameCausesKeep(s, Local(s, step));
  }

  lemma {:induction false} RunsKeepCancel(steps: seq<Step>)
    ensures RowsOk(Exec(Start, steps).db) && CancelOk(Exec(Start, steps))
    decreases |steps|
  {
    hide Local;
    hide Query;
    if steps != [] {
      var s := Exec(Start, steps[..|steps| - 1]);
      var step := steps[|steps| - 1];
      RunsKeepCancel(steps[..|steps| - 1]);
      QueriesAreOk(s, step);
      RunKeepsRows(s.db, Query(s, step));
      LocalKeepsCancel(s, step);
      LocalKeepsDb(s, step);
      RunKeepsCancel(Local(s, step), Query(s, step));
    }
  }

  /** Cancel integrity. An attempt is stopped by CANCEL only if a request was committed while its own
      token held the row; its acknowledgement is then refused only when the token is gone; and no
      queued row carries a request. */
  lemma CancelIntegrity(steps: seq<Step>, t: Token, id: Id, data: Option<string>, at: Time, retryAt: Time)
    ensures
      var s := Exec(Start, steps);
      && (t in s.attempts && s.attempts[t].cause == Some(ByCancel) ==> t in s.db.flagged)
      && (t in s.db.flagged && Current(s.db, t) ==> Accepts(s.db, s.db.issued[t].id, Complete(t, Kind.Cancel, data, at, retryAt)))
      && (id in s.db.rows && s.db.rows[id].state.Queued? ==> s.db.rows[id].cancelRequestedAt.None?)
  {
    RunsKeepCancel(steps);
    var s := Exec(Start, steps);
    assert t in s.db.flagged ==> FlaggedRow(s.db, t);
  }
}
