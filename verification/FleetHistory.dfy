/** What the database's own history looks like after any schedule: dedupe, the lifecycle path of
    every task, its retry budget, and tokens that are spent at most once. */
module FleetHistory {
  import opened Rows
  import opened Fleet
  import opened FleetLease

  // -------------------------------------------------------------------------- reading the history

  /** The row as the task's last published write left it; None for a task never seen. */
  function Last(log: seq<Entry>, id: Id): Option<Row>
    decreases |log|
  {
    if log == [] then None
    else
      var e := log[|log| - 1];
      if e.id == id then Some(e.row) else Last(log[..|log| - 1], id)
  }

  function Claims(log: seq<Entry>, id: Id): nat
    decreases |log|
  {
    if log == [] then 0
    else
      var e := log[|log| - 1];
      Claims(log[..|log| - 1], id) + (if e.id == id && e.op.Claim? then 1 else 0)
  }

  /** Failures that count against the budget: those reported, and leases that ran out uncancelled. */
  predicate Charged(e: Entry) {
    || (e.op.Complete? && (e.op.kind.Fail? || e.op.kind.FailFinal?))
    || (e.op.Reap? && e.before.Some? && e.before.value.cancelRequestedAt.None?)
  }

  /** Failures charged to the task since it was last requeued. */
  function Charges(log: seq<Entry>, id: Id): nat
    decreases |log|
  {
    if log == [] then 0
    else
      var e := log[|log| - 1];
      if e.id != id then Charges(log[..|log| - 1], id)
      else if e.op.Requeue? then 0
      else Charges(log[..|log| - 1], id) + (if Charged(e) then 1 else 0)
  }

  /** The write ended the execution that held token t. */
  predicate Ends(e: Entry, t: Token) {
    e.before.Some? && e.before.value.token == Some(t) && e.row.token != Some(t)
  }

  function Endings(log: seq<Entry>, t: Token): nat
    decreases |log|
  {
    if log == [] then 0 else Endings(log[..|log| - 1], t) + (if Ends(log[|log| - 1], t) then 1 else 0)
  }

  function Grants(log: seq<Entry>, t: Token): nat
    decreases |log|
  {
    if log == [] then 0
    else
      var e := log[|log| - 1];
      Grants(log[..|log| - 1], t) + (if e.op.Claim? && e.op.token == t then 1 else 0)
  }

  /** The entry continues its task's story: it starts in the state the last entry left, takes an
      edge of the automaton, and raises the attempt by one exactly when it is a claim. */
  predicate Continues(log: seq<Entry>, e: Entry) {
    var last := Last(log, e.id);
    && StateOf(last) == StateOf(e.before)
    && Edge(StateOf(last), e.row.state)
    && (last.None? ==> e.row.attempt == 0)
    && (last.Some? ==> e.row.typ == last.value.typ && e.row.attempt == last.value.attempt + (if e.op.Claim? then 1 else 0))
  }

  predicate Lawful(log: seq<Entry>)
    decreases |log|
  {
    log == [] || (Lawful(log[..|log| - 1]) && Continues(log[..|log| - 1], log[|log| - 1]))
  }

  // ------------------------------------------------------------------------------- the invariants

  /** Only lease, progress and a pending cancel request may differ from the last published row. */
  predicate Mirrors(r: Row, last: Row) {
    r == last.(leaseUntil := r.leaseUntil, progress := r.progress, cancelRequestedAt := r.cancelRequestedAt)
  }

  predicate KnownOk(db: Db, id: Id) {
    match Last(db.log, id)
    case None => Claims(db.log, id) == 0 && Charges(db.log, id) == 0
    case Some(last) =>
      && id < db.nextId && Shaped(last)
      && Claims(db.log, id) == last.attempt
      && Charges(db.log, id) == last.failures
  }

  predicate RowKnown(db: Db, id: Id) {
    id in db.rows ==> var last := Last(db.log, id); last.Some? && Mirrors(db.rows[id], last.value)
  }

  predicate Current(db: Db, t: Token) {
    t < |db.issued| && db.issued[t].id in db.rows && Holds(db.rows[db.issued[t].id], t)
  }

  predicate SpentOnce(db: Db, t: Token) {
    && Endings(db.log, t) <= Grants(db.log, t) <= 1
    && (t >= |db.issued| ==> Grants(db.log, t) == 0)
    && (Current(db, t) ==> Endings(db.log, t) == 0 && Grants(db.log, t) == 1)
  }

  ghost predicate KeysOk(rows: map<Id, Row>) {
    forall i, j | i in rows && j in rows && i != j && rows[i].state.Active() && rows[j].state.Active() ::
      rows[i].key.Some? ==> rows[i].typ != rows[j].typ || rows[i].key != rows[j].key
  }

  ghost predicate HistoryOk(db: Db) {
    && RowsOk(db)
    && KeysOk(db.rows)
    && Lawful(db.log)
    && (forall id :: KnownOk(db, id))
    && (forall id :: RowKnown(db, id))
    && (forall t :: SpentOnce(db, t))
  }

  // -------------------------------------------------------------------------------- one statement

  lemma Appended(log: seq<Entry>, e: Entry)
    ensures (log + [e])[..|log|] == log && (log + [e])[|log|] == e
  {
  }

  lemma RunKeepsKeys(db: Db, sql: Sql)
    requires RowsOk(db) && KeysOk(db.rows) && SqlOk(db, sql)
    ensures KeysOk(Run(db, sql).rows)
  {
    var rows, rows' := db.rows, Run(db, sql).rows;
    if sql.Sql? && Apply(sql.op, Find(rows, sql.id)).Wrote? {
      assert sql.id in rows ==> Shaped(rows[sql.id]);
      assert rows'[sql.id].state.Active() ==>
        (sql.id in rows && rows[sql.id].state.Active() && rows[sql.id].typ == rows'[sql.id].typ && rows[sql.id].key == rows'[sql.id].key)
        || KeyFree(rows, rows'[sql.id].typ, rows'[sql.id].key, sql.id);
    }
  }

  /** One more published entry of a task counts its claim and its charge. */
  lemma EntryCounts(log: seq<Entry>, e: Entry, id: Id)
    ensures Last(log + [e], id) == if e.id == id then Some(e.row) else Last(log, id)
    ensures e.id != id ==> Claims(log + [e], id) == Claims(log, id) && Charges(log + [e], id) == Charges(log, id)
    ensures e.id == id ==> Claims(log + [e], id) == Claims(log, id) + if e.op.Claim? then 1 else 0
  {
    Appended(log, e);
  }

  lemma RunKeepsKnown(db: Db, sql: Sql, id: Id)
    requires HistoryOk(db) && SqlOk(db, sql)
    ensures KnownOk(Run(db, sql), id)
  {
    assert KnownOk(db, id);
    if sql.Sql? && Apply(sql.op, Find(db.rows, sql.id)).Wrote? {
      var found := Find(db.rows, sql.id);
      var row := Apply(sql.op, found).row;
      if Publishes(sql.op, row) {
        var e := Entry(sql.id, sql.op, found, row);
        assert Run(db, sql).log == db.log + [e] && Run(db, sql).nextId >= db.nextId;
        EntryCounts(db.log, e, id);
        if sql.id == id { PublishedIsKnown(db, sql, id); }
      }
    }
  }

  lemma ChargesGrow(log: seq<Entry>, e: Entry)
    ensures Charges(log + [e], e.id) == if e.op.Requeue? then 0 else Charges(log, e.id) + if Charged(e) then 1 else 0
  {
    Appended(log, e);
  }

  /** A published write charges what it adds to the row's failures. */
  lemma WriteCharges(id: Id, op: Op, found: Option<Row>)
    requires (found.Some? ==> Shaped(found.value)) && Apply(op, found).Wrote? && Publishes(op, Apply(op, found).row)
    ensures
      var row := Apply(op, found).row;
      && row.failures ==
           (if op.Requeue? || found.None? then 0 else found.value.failures + if Charged(Entry(id, op, found, row)) then 1 else 0)
      && (found.None? ==> !Charged(Entry(id, op, found, row)))
  {
  }

  lemma PublishedIsKnown(db: Db, sql: Sql, id: Id)
    requires HistoryOk(db) && SqlOk(db, sql) && sql.Sql? && sql.id == id
    requires var e := Apply(sql.op, Find(db.rows, id)); e.Wrote? && Publishes(sql.op, e.row)
    ensures KnownOk(Run(db, sql), id)
  {
    var found := Find(db.rows, id);
    var row := Apply(sql.op, found).row;
    var e := Entry(id, sql.op, found, row);
    assert KnownOk(db, id) && RowKnown(db, id);
    if found.Some? { assert Shaped(found.value) && id < db.nextId; }
    WriteKeepsShape(sql.op, found);
    WritePublishesTheMove(sql.op, found);
    WriteCharges(id, sql.op, found);
    EntryCounts(db.log, e, id);
    ChargesGrow(db.log, e);
    assert Run(db, sql).log == db.log + [e] && Run(db, sql).nextId >= db.nextId;
    assert sql.op.Insert? ==> Run(db, sql).nextId > id;
    hide Apply, Publishes, Shaped, Charges, Claims, Last, Run, HistoryOk, Charged;
  }

  lemma RunKeepsMirror(db: Db, sql: Sql, id: Id)
    requires HistoryOk(db) && SqlOk(db, sql)
    ensures RowKnown(Run(db, sql), id)
  {
    assert RowKnown(db, id);
    if sql.Sql? && Apply(sql.op, Find(db.rows, sql.id)).Wrote? {
      var found := Find(db.rows, sql.id);
      var row := Apply(sql.op, found).row;
      assert RowKnown(db, sql.id);
      if Publishes(sql.op, row) { Appended(db.log, Entry(sql.id, sql.op, found, row)); }
    }
  }

  lemma RunKeepsLawful(db: Db, sql: Sql)
    requires HistoryOk(db) && SqlOk(db, sql)
    ensures Lawful(Run(db, sql).log)
  {
    if sql.Sql? && Apply(sql.op, Find(db.rows, sql.id)).Wrote? {
      var found := Find(db.rows, sql.id);
      var row := Apply(sql.op, found).row;
      WritePublishesTheMove(sql.op, found);
      assert KnownOk(db, sql.id) && RowKnown(db, sql.id);
      if Publishes(sql.op, row) { Appended(db.log, Entry(sql.id, sql.op, found, row)); }
    }
  }

  /** A published write either grants a fresh token to a tokenless row, or leaves the row tokenless. */
  lemma PublishedWritesMoveTokens(op: Op, found: Option<Row>)
    requires found.Some? ==> Shaped(found.value)
    requires Apply(op, found).Wrote?
    ensures
      var row := Apply(op, found).row;
      && (op.Claim? ==> found.Some? && found.value.token.None? && Holds(row, op.token) && Publishes(op, row))
      && (!op.Claim? && Publishes(op, row) ==> row.token.None?)
      && (!Publishes(op, row) ==> found.Some? && row.token == found.value.token && row.state == found.value.state)
  {
  }

  /** One more published entry spends a token only if its row was held under it. */
  lemma EntryKeepsSpent(db: Db, db': Db, e: Entry, t: Token)
    requires SpentOnce(db, t) && db'.log == db.log + [e]
    requires if e.op.Claim? then e.op.token == |db.issued| && |db'.issued| == |db.issued| + 1 else db'.issued == db.issued
    requires Ends(e, t) ==> Current(db, t)
    requires Current(db', t) ==> (e.op.Claim? && e.op.token == t) || (Current(db, t) && !Ends(e, t))
    ensures SpentOnce(db', t)
  {
    Appended(db.log, e);
    assert Current(db, t) ==> t < |db.issued|;
    hide Current;
    assert Endings(db'.log, t) == Endings(db.log, t) + (if Ends(e, t) then 1 else 0);
    assert Grants(db'.log, t) == Grants(db.log, t) + (if e.op.Claim? && e.op.token == t then 1 else 0);
  }

  /** What a write does to who holds token t. */
  lemma TokenMoves(db: Db, sql: Sql, t: Token)
    requires RowsOk(db) && SqlOk(db, sql) && sql.Sql? && Apply(sql.op, Find(db.rows, sql.id)).Wrote?
    ensures
      var found := Find(db.rows, sql.id);
      var row := Apply(sql.op, found).row;
      var db', e := Run(db, sql), Entry(sql.id, sql.op, found, row);
      && db'.log == (if Publishes(sql.op, row) then db.log + [e] else db.log)
      && (if sql.op.Claim? then sql.op.token == |db.issued| && |db'.issued| == |db.issued| + 1 else db'.issued == db.issued)
      && (Ends(e, t) ==> Current(db, t))
      && (Current(db', t) ==> (sql.op.Claim? && sql.op.token == t) || (Current(db, t) && !Ends(e, t)))
      && (sql.op.Claim? ==> Publishes(sql.op, row))
  {
    var found := Find(db.rows, sql.id);
    var row := Apply(sql.op, found).row;
    if found.Some? { assert TokenOk(db, sql.id) && Shaped(found.value); }
    PublishedWritesMoveTokens(sql.op, found);
    assert Run(db, sql).rows == db.rows[sql.id := row];
    hide Apply, IssuedOk;
    if sql.op.Claim? { assert Run(db, sql).issued == db.issued + [Issue(sql.id, sql.op.worker)]; }
  }

  lemma RunKeepsSpent(db: Db, sql: Sql, t: Token)
    requires HistoryOk(db) && SqlOk(db, sql)
    ensures SpentOnce(Run(db, sql), t)
  {
    assert SpentOnce(db, t);
    if sql.Sql? && Apply(sql.op, Find(db.rows, sql.id)).Wrote? {
      var found := Find(db.rows, sql.id);
      var e := Entry(sql.id, sql.op, found, Apply(sql.op, found).row);
      TokenMoves(db, sql, t);
      hide Apply, RowsOk, Run;
      if Publishes(sql.op, e.row) { EntryKeepsSpent(db, Run(db, sql), e, t); }
    }
  }

  lemma RunKeepsHistory(db: Db, sql: Sql)
    requires HistoryOk(db) && SqlOk(db, sql)
    ensures HistoryOk(Run(db, sql))
  {
    var db' := Run(db, sql);
    RunKeepsRows(db, sql);
    RunKeepsKeys(db, sql);
    RunKeepsLawful(db, sql);
    forall id ensures KnownOk(db', id) { RunKeepsKnown(db, sql, id); }
    forall id ensures RowKnown(db', id) { RunKeepsMirror(db, sql, id); }
    forall t ensures SpentOnce(db', t) { RunKeepsSpent(db, sql, t); }
  }

  lemma {:induction false} RunsKeepHistory(steps: seq<Step>)
    ensures HistoryOk(Exec(Start, steps).db)
    decreases |steps|
  {
    hide Local;
    hide Query;
    if steps != [] {
      var before := Exec(Start, steps[..|steps| - 1]);
      RunsKeepHistory(steps[..|steps| - 1]);
      QueriesAreOk(before, steps[|steps| - 1]);
      RunKeepsHistory(before.db, Query(before, steps[|steps| - 1]));
    }
  }

  // ------------------------------------------------------------------------------- every schedule

  /** Dedupe: never two active rows of one type and key, whatever is enqueued, finished or requeued. */
  lemma NoActiveDuplicates(steps: seq<Step>, i: Id, j: Id)
    requires var rows := Exec(Start, steps).db.rows;
      i in rows && j in rows && i != j && rows[i].state.Active() && rows[j].state.Active() && rows[i].key.Some?
    ensures var rows := Exec(Start, steps).db.rows; (rows[i].typ, rows[i].key) != (rows[j].typ, rows[j].key)
  {
    RunsKeepHistory(steps);
  }

  /** The outbox is the lifecycle: replaying a task's published entries gives its row, they walk the
      automaton, the attempt is the number of claims, and the failures charged since the last requeue
      are the row's count and never exceed its budget. */
  lemma PublishedHistoryIsTheLifecycle(steps: seq<Step>, id: Id)
    ensures
      var db := Exec(Start, steps).db;
      && Lawful(db.log)
      && (id in db.rows ==>
            && Shaped(db.rows[id])
            && Last(db.log, id).Some? && Mirrors(db.rows[id], Last(db.log, id).value)
            && db.rows[id].attempt == Claims(db.log, id)
            && db.rows[id].failures == Charges(db.log, id))
      && (Last(db.log, id).Some? ==> Charges(db.log, id) <= Last(db.log, id).value.maxAttempts)
  {
    RunsKeepHistory(steps);
    var db := Exec(Start, steps).db;
    assert KnownOk(db, id) && RowKnown(db, id);
  }

  /** A token is granted by one claim and ended by at most one write, however often completions,
      reaps and renewals are retried. */
  lemma TokensAreSpentOnce(steps: seq<Step>, t: Token)
    ensures Endings(Exec(Start, steps).db.log, t) <= Grants(Exec(Start, steps).db.log, t) <= 1
  {
    RunsKeepHistory(steps);
    assert SpentOnce(Exec(Start, steps).db, t);
  }
}
