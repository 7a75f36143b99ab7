/** The retry budget as a termination measure: between two requeues a task is claimed at most
    max_attempts times, but for executions that put it back without a charge. */
module FleetBudget {
  import opened Rows
  import opened Fleet
  import opened FleetLease
  import opened FleetHistory

  /** Claims of the task since it was last requeued. */
  function RoundClaims(log: seq<Entry>, id: Id): nat
    decreases |log|
  {
    if log == [] then 0
    else
      var e := log[|log| - 1];
      if e.id != id then RoundClaims(log[..|log| - 1], id)
      else if e.op.Requeue? then 0
      else RoundClaims(log[..|log| - 1], id) + (if e.op.Claim? then 1 else 0)
  }

  /** An execution that ended with the task queued again and nothing charged. */
  predicate PutsBack(e: Entry) {
    && e.before.Some? && e.before.value.state.Running? && e.row.state.Queued?
    && e.row.failures == e.before.value.failures
  }

  function RoundReleases(log: seq<Entry>, id: Id): nat
    decreases |log|
  {
    if log == [] then 0
    else
      var e := log[|log| - 1];
      if e.id != id then RoundReleases(log[..|log| - 1], id)
      else if e.op.Requeue? then 0
      else RoundReleases(log[..|log| - 1], id) + (if PutsBack(e) then 1 else 0)
  }

  predicate BudgetOk(db: Db, id: Id) {
    var claims, releases := RoundClaims(db.log, id), RoundReleases(db.log, id);
    match Last(db.log, id)
    case None => claims == 0 && releases == 0
    case Some(last) =>
      && (last.state.Active() ==> claims == last.failures + releases + if last.state.Running? then 1 else 0)
      && claims <= last.maxAttempts + releases
  }

  lemma OneMoreEntry(log: seq<Entry>, e: Entry, id: Id)
    requires e.id != id
    ensures RoundClaims(log + [e], id) == RoundClaims(log, id) && RoundReleases(log + [e], id) == RoundReleases(log, id)
  {
    Appended(log, e);
  }

  lemma OwnEntry(log: seq<Entry>, e: Entry)
    ensures
      RoundClaims(log + [e], e.id) == if e.op.Requeue? then 0 else RoundClaims(log, e.id) + if e.op.Claim? then 1 else 0
    ensures
      RoundReleases(log + [e], e.id) == if e.op.Requeue? then 0 else RoundReleases(log, e.id) + if PutsBack(e) then 1 else 0
  {
    Appended(log, e);
  }

  lemma PublishedKeepsBudget(db: Db, sql: Sql)
    requires HistoryOk(db) && SqlOk(db, sql) && sql.Sql? && BudgetOk(db, sql.id)
    requires var e := Apply(sql.op, Find(db.rows, sql.id)); e.Wrote? && Publishes(sql.op, e.row)
    ensures BudgetOk(Run(db, sql), sql.id)
  {
    var found := Find(db.rows, sql.id);
    var row := Apply(sql.op, found).row;
    var e := Entry(sql.id, sql.op, found, row);
    assert KnownOk(db, sql.id) && RowKnown(db, sql.id);
    if found.Some? { assert Shaped(found.value); }
    WriteKeepsShape(sql.op, found);
    EntryCounts(db.log, e, sql.id);
    OwnEntry(db.log, e);
    assert Run(db, sql).log == db.log + [e];
    hide Lawful, KeysOk, HistoryOk, Last, RoundClaims, RoundReleases;
  }

  lemma RunKeepsBudget(db: Db, sql: Sql, id: Id)
    requires HistoryOk(db) && SqlOk(db, sql) && BudgetOk(db, id)
    ensures BudgetOk(Run(db, sql), id)
  {
    if sql.Sql? && Apply(sql.op, Find(db.rows, sql.id)).Wrote? && Publishes(sql.op, Apply(sql.op, Find(db.rows, sql.id)).row) {
      if sql.id == id {
        PublishedKeepsBudget(db, sql);
      } else {
        var e := Entry(sql.id, sql.op, Find(db.rows, sql.id), Apply(sql.op, Find(db.rows, sql.id)).row);
        assert Run(db, sql).log == db.log + [e];
        EntryCounts(db.log, e, id);
        OneMoreEntry(db.log, e, id);
      }
    }
  }

  lemma {:induction false} RunsKeepBudget(steps: seq<Step>, id: Id)
    ensures BudgetOk(Exec(Start, steps).db, id)
    decreases |steps|
  {
    hide Local, Query, HistoryOk, BudgetOk;
    if steps != [] {
      var before, step := steps[..|steps| - 1], steps[|steps| - 1];
      var s := Exec(Start, before);
      RunsKeepBudget(before, id);
      RunsKeepHistory(before);
      QueriesAreOk(s, step);
      RunKeepsBudget(s.db, Query(s, step), id);
    } else {
      StartHasBudget(id);
    }
  }

  lemma StartHasBudget(id: Id)
    ensures BudgetOk(Start.db, id)
  {
  }

  /** Always-failing tasks end. Since its last requeue a task has been claimed at most max_attempts times
      beyond the executions that put it back uncharged, and once it has been, it is running its last
      time or terminal. */
  lemma FailingTasksEnd(steps: seq<Step>, id: Id)
    requires id in Exec(Start, steps).db.rows
    ensures
      var db := Exec(Start, steps).db;
      var row := db.rows[id];
      var claims, releases := RoundClaims(db.log, id), RoundReleases(db.log, id);
      && claims <= row.maxAttempts + releases
      && (row.state.Queued? ==> claims < row.maxAttempts + releases)
      && (row.state.Running? ==> claims == row.failures + releases + 1)
      && (claims == row.maxAttempts + releases && !row.state.Running? ==> row.state.Terminal())
  {
    RunsKeepBudget(steps, id);
    RunsKeepHistory(steps);
    var db := Exec(Start, steps).db;
    assert RowKnown(db, id) && Shaped(db.rows[id]);
  }
}
