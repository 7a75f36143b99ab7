/** Why every task is where it is: which write put it there, and what that write and the ones before it
    left in its columns. The accounts below are independent of how the statements compute them. */
module FleetOutcomes {
  import opened Rows
  import opened Fleet
  import opened FleetLease
  import opened FleetHistory

  // --------------------------------------------------------------------- the account of one write

  /** A cancel request was pending as the execution ended. */
  predicate Asked(e: Entry) { e.before.Some? && e.before.value.cancelRequestedAt.Some? }

  /** The budget allows another attempt after this failure. */
  predicate RetryLeft(e: Entry) { e.before.Some? && e.before.value.failures + 1 < e.before.value.maxAttempts }

  /** A failure that may be retried: a reported one that is not final, or a lease that ran out. */
  predicate Retriable(e: Entry) { (e.op.Complete? && e.op.kind.Fail?) || e.op.Reap? }

  predicate Ended(e: Entry, kind: Kind) { e.op.Complete? && e.op.kind == kind }

  /** The state of a task tells which write was its last, and conversely; its result and finish time
      are that write's. */
  predicate Explains(e: Entry, r: Row) {
    && (r.state.Running? <==> e.op.Claim?)
    && (r.state.Succeeded? <==> Ended(e, Succeed))
    && (r.state.Failed? <==> Ended(e, FailFinal) || (Retriable(e) && !Asked(e) && !RetryLeft(e)))
    && (r.state.Cancelled? <==>
          Ended(e, Kind.Cancel) || e.op.RequestCancel? || ((Retriable(e) || Ended(e, Release)) && Asked(e)))
    && (r.state.Queued? <==>
          e.op.Insert? || e.op.Requeue? || (Ended(e, Release) && !Asked(e)) || (Retriable(e) && !Asked(e) && RetryLeft(e)))
    && r.finishedAt == (if r.state.Terminal() then Some(e.op.at) else None)
    && r.result == (if r.state.Succeeded? then e.op.data else None)
  }

  /** The write found the row in a state it may act on: due for a claim, held for a completion, past its
      lease for a reap. */
  predicate Entitled(e: Entry) {
    match (e.op, e.before)
    case (Insert(_, _, maxAttempts, _), None) => maxAttempts >= 1
    case (Claim(_, _, at, _), Some(b)) => b.state.Queued? && b.runAt <= at
    case (Complete(token, kind, _, _, _), Some(b)) =>
      b.state.Running? && b.token == Some(token) && (kind.Cancel? ==> b.cancelRequestedAt.Some?)
    case (RequestCancel(_), Some(b)) => b.state.Queued?
    case (Reap(at, _), Some(b)) => b.state.Running? && b.leaseUntil.Some? && b.leaseUntil.value < at
    case (Requeue(_), Some(b)) => b.state.Failed? || b.state.Cancelled?
    case _ => false
  }

  // --------------------------------------------------------------------- the account of one task

  /** How the task was enqueued, its last write, the last fault recorded, when it is due and who
      claimed it last. */
  datatype Story = Story(enqueued: Op, last: Entry, fault: Option<Fault>, due: Time, worker: Option<Worker>)

  function FaultOf(e: Entry, before: Option<Fault>): Option<Fault> {
    if Ended(e, Fail) || Ended(e, FailFinal) then Some(Reported(e.op.data))
    else if e.op.Reap? && e.before.Some? && !Asked(e) then Some(LeaseExpired(e.before.value.worker, e.before.value.attempt))
    else before
  }

  function DueAfter(e: Entry, before: Time): Time {
    if e.op.Requeue? || Ended(e, Release) then e.op.at
    else if Retriable(e) && !Asked(e) && RetryLeft(e) then e.op.retryAt
    else before
  }

  function Continued(story: Option<Story>, e: Entry): Story {
    if e.op.Insert? || story.None? then Story(e.op, e, None, if e.op.Insert? then e.op.runAt else 0.0, None)
    else
      var t := story.value;
      Story(t.enqueued, e, FaultOf(e, t.fault), DueAfter(e, t.due), if e.op.Claim? then Some(e.op.worker) else t.worker)
  }

  function StoryOf(log: seq<Entry>, id: Id): Option<Story>
    decreases |log|
  {
    if log == [] then None
    else
      var e, before := log[|log| - 1], StoryOf(log[..|log| - 1], id);
      if e.id == id then Some(Continued(before, e)) else before
  }

  predicate Tells(t: Story, r: Row) {
    && Explains(t.last, r)
    && r.error == t.fault && r.runAt == t.due && r.worker == t.worker
    && t.enqueued.Insert? && r.typ == t.enqueued.typ && r.key == t.enqueued.key && r.maxAttempts == t.enqueued.maxAttempts
  }

  predicate StoryOk(db: Db, id: Id) {
    match StoryOf(db.log, id)
    case None => Last(db.log, id).None?
    case Some(t) => Last(db.log, id) == Some(t.last.row) && Tells(t, t.last.row) && Entitled(t.last)
  }

  // ------------------------------------------------------------------------------- one statement

  lemma PublishedTells(id: Id, op: Op, found: Option<Row>, story: Option<Story>)
    requires found.Some? ==> Shaped(found.value) && story.Some? && Tells(story.value, found.value)
    requires found.None? ==> story.None?
    requires Apply(op, found).Wrote? && Publishes(op, Apply(op, found).row)
    ensures
      var e := Entry(id, op, found, Apply(op, found).row);
      Tells(Continued(story, e), e.row) && Entitled(e)
  {
  }

  lemma RunKeepsStory(db: Db, sql: Sql, id: Id)
    requires HistoryOk(db) && SqlOk(db, sql) && StoryOk(db, id)
    ensures StoryOk(Run(db, sql), id)
  {
    if sql.Sql? && Apply(sql.op, Find(db.rows, sql.id)).Wrote? {
      var found := Find(db.rows, sql.id);
      var row := Apply(sql.op, found).row;
      if Publishes(sql.op, row) {
        var e := Entry(sql.id, sql.op, found, row);
        assert Run(db, sql).log == db.log + [e];
        Appended(db.log, e);
        if sql.id == id {
          assert KnownOk(db, id) && RowKnown(db, id);
          if found.Some? { assert Shaped(found.value); }
          hide HistoryOk, Apply, Publishes, Continued, Entitled, Explains, KnownOk;
          PublishedTells(id, sql.op, found, StoryOf(db.log, id));
        }
      }
    }
  }

  lemma {:induction false} RunsKeepStories(steps: seq<Step>, id: Id)
    ensures StoryOk(Exec(Start, steps).db, id)
    decreases |steps|
  {
    hide Local, Query, HistoryOk, StoryOk;
    if steps != [] {
      var before, step := steps[..|steps| - 1], steps[|steps| - 1];
      var s := Exec(Start, before);
      RunsKeepStories(before, id);
      RunsKeepHistory(before);
      QueriesAreOk(s, step);
      RunKeepsStory(s.db, Query(s, step), id);
    } else {
      NothingTold(id);
    }
  }

  lemma NothingTold(id: Id)
    ensures StoryOk(Start.db, id)
  {
  }

  // ------------------------------------------------------------------------------- every schedule

  /** Every task is explained by its writes. It keeps the type, key and budget it was enqueued with. It is
      Succeeded exactly when its last write is the completion of kind Succeed by the holder, with that
      completion's result; Failed exactly after a final failure, or one that used up the budget, with
      no request pending; Cancelled exactly when acknowledged, requested while queued, or ended with a
      request pending; Queued exactly when enqueued, requeued, released, or failed with budget left. Its
      error is the last fault reported or reaped, and it is due when the last of these said. */
  lemma EveryTaskIsExplained(steps: seq<Step>, id: Id)
    requires id in Exec(Start, steps).db.rows
    ensures
      var db := Exec(Start, steps).db;
      var t := StoryOf(db.log, id);
      t.Some? && Tells(t.value, db.rows[id]) && Entitled(t.value.last)
  {
    RunsKeepStories(steps, id);
    RunsKeepHistory(steps);
    var db := Exec(Start, steps).db;
    assert RowKnown(db, id);
  }
}
