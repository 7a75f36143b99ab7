/** Store functions that take more than one statement, with other clients stepping in between. */
module Store {
  import opened Rows
  import opened Fleet
  import opened FleetLease
  import opened FleetHistory
  import Completions
  import CompletionsRuns

  /** A statement of this call or of anybody else; one that breaks the unique index has no effect. */
  function Make(db: Db, sql: Sql): Db { if SqlOk(db, sql) then Run(db, sql) else db }

  /** The database after a trace of statements. */
  function Replay(db: Db, trace: seq<Sql>): Db
    decreases |trace|
  {
    if trace == [] then db else Make(Replay(db, trace[..|trace| - 1]), trace[|trace| - 1])
  }

  lemma ReplayMore(db: Db, trace: seq<Sql>, m: Sql)
    ensures Replay(db, trace + [m]) == Make(Replay(db, trace), m)
  {
    assert (trace + [m])[..|trace|] == trace;
  }

  lemma {:induction false} ReplayKeeps(db: Db, trace: seq<Sql>)
    requires RowsOk(db) && KeysOk(db.rows)
    ensures RowsOk(Replay(db, trace)) && KeysOk(Replay(db, trace).rows)
    decreases |trace|
  {
    if trace != [] {
      var before := Replay(db, trace[..|trace| - 1]);
      ReplayKeeps(db, trace[..|trace| - 1]);
      if SqlOk(before, trace[|trace| - 1]) {
        RunKeepsRows(before, trace[|trace| - 1]);
        RunKeepsKeys(before, trace[|trace| - 1]);
      }
    }
  }

  // -------------------------------------------------------------------------------------- enqueue

  datatype Enqueued = Inserted(id: Id) | Existing(id: Id) | TimedOut

  datatype NewTask = NewTask(typ: string, key: Option<string>, maxAttempts: nat, runAt: Time)

  /** What the others do after each of the two statements of a round, and whether the deadline has
      passed by its end. */
  datatype Round = Round(afterInsert: seq<Sql>, afterLookup: seq<Sql>, late: bool)

  predicate ActiveUnder(rows: map<Id, Row>, id: Id, typ: string, key: Option<string>) {
    id in rows && rows[id].state.Active() && rows[id].typ == typ && key.Some? && rows[id].key == key
  }

  predicate Taken(rows: map<Id, Row>, typ: string, key: Option<string>) {
    exists id :: id in rows && ActiveUnder(rows, id, typ, key)
  }

  /** A row that holds the task as it was asked for, still to be claimed for the first time. */
  predicate HoldsTask(r: Row, task: NewTask) {
    && r.typ == task.typ && r.key == task.key && r.maxAttempts == task.maxAttempts && r.runAt == task.runAt
    && r.state.Queued? && r.attempt == 0 && r.failures == 0 && r.cancelRequestedAt.None?
    && r.result.None? && r.error.None? && r.progress.None?
  }

  function InsertOf(task: NewTask): Op { Insert(task.typ, task.key, task.maxAttempts, task.runAt) }

  /** The others' statements run. */
  method Interfere(db: Db, sqls: seq<Sql>) returns (after: Db)
    ensures after == Replay(db, sqls)
  {
    after := db;
    for i := 0 to |sqls|
      invariant after == Replay(db, sqls[..i])
    {
      ReplayMore(db, sqls[..i], sqls[i]);
      after := Make(after, sqls[i]);
      assert sqls[..i + 1] == sqls[..i] + [sqls[i]];
    }
    assert sqls[..|sqls|] == sqls;
  }

  method FindActive(db: Db, typ: string, key: Option<string>) returns (found: Option<Id>)
    ensures found.Some? ==> ActiveUnder(db.rows, found.value, typ, key)
    ensures found.None? <==> !Taken(db.rows, typ, key)
  {
    var left := db.rows.Keys;
    while left != {}
      invariant left <= db.rows.Keys
      invariant forall id | id in db.rows && id !in left :: !ActiveUnder(db.rows, id, typ, key)
      decreases |left|
    {
      var id :| id in left;
      if ActiveUnder(db.rows, id, typ, key) { return Some(id); }
      left := left - {id};
    }
    found := None;
  }

  /** One round that starts from `db`. An inserted id is fresh and its row, which holds the task, is the
      only write, made while nobody held the key; an existing id is active under the key when the lookup runs; a time-out comes past
      the deadline and, like a round without an answer, met a holder of the key and found none. */
  ghost predicate Decides(db: Db, task: NewTask, round: Round, answer: Option<Enqueued>, after: Db) {
    var atLookup := Replay(db, round.afterInsert);
    var lost := Taken(db.rows, task.typ, task.key) && !Taken(atLookup.rows, task.typ, task.key);
    match answer
    case Some(Inserted(id)) =>
      && id == db.nextId && id !in db.rows && !Taken(db.rows, task.typ, task.key)
      && id in after.rows && after.rows == db.rows[id := after.rows[id]] && HoldsTask(after.rows[id], task)
      && (task.key.Some? ==> ActiveUnder(after.rows, id, task.typ, task.key))
      && after.nextId == id + 1 && after.issued == db.issued && after.flagged == db.flagged
    case Some(Existing(id)) =>
      Taken(db.rows, task.typ, task.key) && after == atLookup && ActiveUnder(after.rows, id, task.typ, task.key)
    case Some(TimedOut) => lost && round.late && after == atLookup
    case None => lost && !round.late && after == Replay(atLookup, round.afterLookup)
  }

  /** The database as round `n` begins, if no earlier round wrote. */
  function Reached(db0: Db, script: seq<Round>, n: nat): Db
    requires n <= |script|
  {
    if n == 0 then db0
    else Replay(Replay(Reached(db0, script, n - 1), script[n - 1].afterInsert), script[n - 1].afterLookup)
  }

  ghost predicate Undecided(db0: Db, task: NewTask, script: seq<Round>, k: nat)
    requires k < |script|
  {
    Decides(Reached(db0, script, k), task, script[k], None, Reached(db0, script, k + 1))
  }

  /** What enqueue promises: round `n` is the first to give an answer. */
  ghost predicate Answers(db0: Db, task: NewTask, script: seq<Round>, n: nat, r: Enqueued, db: Db)
    requires n < |script|
  {
    && (forall k | 0 <= k < n :: Undecided(db0, task, script, k))
    && Decides(Reached(db0, script, n), task, script[n], Some(r), db)
  }

  lemma FreeUnlessTaken(db: Db, typ: string, key: Option<string>)
    requires RowsOk(db)
    ensures KeyFree(db.rows, typ, key, db.nextId) <==> !Taken(db.rows, typ, key)
  {
    if !KeyFree(db.rows, typ, key, db.nextId) {
      var j :| j in db.rows && j != db.nextId && db.rows[j].state.Active() && db.rows[j].typ == typ && db.rows[j].key == key;
      assert ActiveUnder(db.rows, j, typ, key);
    }
    if Taken(db.rows, typ, key) {
      var id :| id in db.rows && ActiveUnder(db.rows, id, typ, key);
      assert id < db.nextId;
    }
  }

  lemma InsertApplies(db: Db, task: NewTask)
    requires RowsOk(db) && !Taken(db.rows, task.typ, task.key) && task.maxAttempts >= 1
    ensures db.nextId !in db.rows
    ensures
      var id, after := db.nextId, Make(db, Sql(db.nextId, InsertOf(task)));
      && id in after.rows && after.rows == db.rows[id := after.rows[id]] && HoldsTask(after.rows[id], task)
      && after.nextId == id + 1 && after.issued == db.issued && after.flagged == db.flagged
  {
    FreeUnlessTaken(db, task.typ, task.key);
  }

  method OneRound(db: Db, task: NewTask, round: Round) returns (answer: Option<Enqueued>, after: Db)
    requires RowsOk(db) && KeysOk(db.rows) && task.maxAttempts >= 1
    ensures Decides(db, task, round, answer, after) && RowsOk(after) && KeysOk(after.rows)
  {
    FreeUnlessTaken(db, task.typ, task.key);
    var id := db.nextId;
    if KeyFree(db.rows, task.typ, task.key, id) {
      var sql := Sql(id, InsertOf(task));
      InsertApplies(db, task);
      ReplayMore(db, [], sql);
      ReplayKeeps(db, [sql]);
      assert [] + [sql] == [sql];
      return Some(Inserted(id)), Make(db, sql);
    }
    after := Interfere(db, round.afterInsert);
    ReplayKeeps(db, round.afterInsert);
    var found := FindActive(after, task.typ, task.key);
    if found.Some? { return Some(Existing(found.value)), after; }
    if round.late { return Some(TimedOut), after; }
    ReplayKeeps(after, round.afterLookup);
    after := Interfere(after, round.afterLookup);
    answer := None;
  }

  /** With the index in force nobody else is active under the key of an active task. */
  lemma OnlyOneHolder(db: Db, a: Id, b: Id, typ: string, key: Option<string>)
    requires KeysOk(db.rows) && ActiveUnder(db.rows, a, typ, key) && ActiveUnder(db.rows, b, typ, key)
    ensures a == b
  {
  }

  /** Insert, or return the active task of this type and key, or try again until the deadline; `script`
      is what the others do meanwhile. Answers with the round that decided. */
  method Enqueue(db0: Db, task: NewTask, script: seq<Round>) returns (r: Enqueued, db: Db, n: nat)
    requires RowsOk(db0) && KeysOk(db0.rows) && task.maxAttempts >= 1
    requires script != [] && script[|script| - 1].late
    ensures n < |script| && Answers(db0, task, script, n, r, db)
    ensures RowsOk(db) && KeysOk(db.rows)
    ensures r.Existing? ==> forall other | ActiveUnder(db.rows, other, task.typ, task.key) :: other == r.id
  {
    db, n := db0, 0;
    while true
      invariant n < |script| && db == Reached(db0, script, n) && RowsOk(db) && KeysOk(db.rows)
      invariant forall k | 0 <= k < n :: Undecided(db0, task, script, k)
      decreases |script| - n
    {
      var answer, after := OneRound(db, task, script[n]);
      if answer.Some? {
        if answer.value.Existing? {
          forall other | ActiveUnder(after.rows, other, task.typ, task.key) ensures other == answer.value.id {
            OnlyOneHolder(after, other, answer.value.id, task.typ, task.key);
          }
        }
        return answer.value, after, n;
      }
      db, n := after, n + 1;
    }
  }

  /** While the task is active, when the call begins and when it looks the key up, enqueue finds it and
      writes nothing. */
  lemma FoundWhileActive(db0: Db, task: NewTask, script: seq<Round>, n: nat, r: Enqueued, db: Db, id: Id)
    requires n < |script| && Answers(db0, task, script, n, r, db)
    requires ActiveUnder(db0.rows, id, task.typ, task.key)
    requires
      var atLookup := Replay(db0, script[0].afterInsert);
      KeysOk(atLookup.rows) && ActiveUnder(atLookup.rows, id, task.typ, task.key)
    ensures n == 0 && r == Existing(id) && db == Replay(db0, script[0].afterInsert)
  {
    var atLookup := Replay(db0, script[0].afterInsert);
    assert n > 0 ==> Undecided(db0, task, script, 0);
    assert Taken(atLookup.rows, task.typ, task.key);
    if r.Existing? { OnlyOneHolder(atLookup, r.id, id, task.typ, task.key); }
  }

  /** Dedupe as a caller sees it: enqueued again under the same type and key while the first task is
      still active, the second call answers with the first task's id and adds nothing. */
  method EnqueueTwice(db0: Db, task: NewTask, script: seq<Round>, between: seq<Sql>, again: NewTask, next: seq<Round>)
    returns (first: Enqueued, mid: Db, second: Enqueued, db: Db)
    requires RowsOk(db0) && KeysOk(db0.rows) && task.maxAttempts >= 1 && again.maxAttempts >= 1
    requires task.key.Some? && again.typ == task.typ && again.key == task.key
    requires script != [] && script[|script| - 1].late && next != [] && next[|next| - 1].late
    ensures
      var before := Replay(mid, between);
      var atLookup := Replay(before, next[0].afterInsert);
      && (!first.TimedOut? ==> ActiveUnder(mid.rows, first.id, task.typ, task.key))
      && (!first.TimedOut? && ActiveUnder(before.rows, first.id, task.typ, task.key) && ActiveUnder(atLookup.rows, first.id, task.typ, task.key)
          ==> second == Existing(first.id) && db == atLookup)
  {
    var n, k;
    first, mid, n := Enqueue(db0, task, script);
    ReplayKeeps(mid, between);
    var before := Interfere(mid, between);
    second, db, k := Enqueue(before, again, next);
    ReplayKeeps(before, next[0].afterInsert);
    var atLookup := Replay(before, next[0].afterInsert);
    if !first.TimedOut? && ActiveUnder(before.rows, first.id, task.typ, task.key) && ActiveUnder(atLookup.rows, first.id, task.typ, task.key) {
      FoundWhileActive(before, again, next, k, second, db, first.id);
    }
  }

  // ------------------------------------------------------------------------------------- complete

  type Outcome = Completions.Completion

  datatype Answer = InvalidInput | States(states: map<Id, State>)

  /** `retryAt` draws the jittered backoff of each row. */
  function OpOf(c: Outcome, at: Time, retryAt: Id -> Time): Op { Complete(c.token, c.kind, c.data, at, retryAt(c.id)) }

  predicate Distinct(batch: seq<Outcome>) { forall i, j :: 0 <= i < j < |batch| ==> batch[i].id != batch[j].id }

  function Ids(batch: seq<Outcome>): set<Id> { set k | 0 <= k < |batch| :: batch[k].id }

  predicate Takes(db: Db, c: Outcome, at: Time, retryAt: Id -> Time) { Accepts(db, c.id, OpOf(c, at, retryAt)) }

  /** The token holds the row, and a cancel was asked for if one is acknowledged. */
  predicate Fenced(db: Db, c: Outcome) {
    && c.id in db.rows && db.rows[c.id].state.Running? && db.rows[c.id].token == Some(c.token)
    && (c.kind.Cancel? ==> db.rows[c.id].cancelRequestedAt.Some?)
  }

  /** What the row looks like after this outcome: where each kind ends, with and without a pending request
      and with and without budget left, and what is stored. */
  predicate Concludes(before: Row, c: Outcome, at: Time, retryAt: Time, after: Row) {
    var asked, retry := before.cancelRequestedAt.Some?, before.failures + 1 < before.maxAttempts;
    && (c.kind.Succeed? ==> after.state.Succeeded? && after.result == c.data)
    && (c.kind.FailFinal? ==> after.state.Failed?)
    && (c.kind.Cancel? ==> after.state.Cancelled?)
    && ((c.kind.Release? || c.kind.Fail?) && asked ==> after.state.Cancelled?)
    && (c.kind.Release? && !asked ==> after.state.Queued? && after.runAt == at)
    && (c.kind.Fail? && !asked && retry ==> after.state.Queued? && after.runAt == retryAt)
    && (c.kind.Fail? && !asked && !retry ==> after.state.Failed?)
    && (if c.kind.Fail? || c.kind.FailFinal? then after.error == Some(Reported(c.data)) && after.failures == before.failures + 1
        else after.error == before.error && after.failures == before.failures)
    && (!c.kind.Succeed? ==> after.result == before.result)
    && after.finishedAt == (if after.state.Terminal() then Some(at) else None)
    && after.token.None? && after.leaseUntil.None?
    && after.typ == before.typ && after.key == before.key && after.maxAttempts == before.maxAttempts && after.attempt == before.attempt
    && after.worker == before.worker && after.cancelRequestedAt == before.cancelRequestedAt && after.progress == before.progress
  }

  lemma TakenIsConcluded(db: Db, c: Outcome, at: Time, retryAt: Id -> Time)
    ensures Takes(db, c, at, retryAt) <==> Fenced(db, c)
    ensures Fenced(db, c) ==>
      var e := Apply(OpOf(c, at, retryAt), Find(db.rows, c.id));
      e.Wrote? && Concludes(db.rows[c.id], c, at, retryAt(c.id), e.row)
  {
  }

  function OneByOne(db: Db, batch: seq<Outcome>, at: Time, retryAt: Id -> Time): Db
    decreases |batch|
  {
    if batch == [] then db
    else
      var last := batch[|batch| - 1];
      Run(OneByOne(db, batch[..|batch| - 1], at, retryAt), Sql(last.id, OpOf(last, at, retryAt)))
  }

  /** len({ids}) == len(batch), as the source tests for duplicates. */
  lemma {:induction false} DistinctBySize(batch: seq<Outcome>)
    ensures |Ids(batch)| <= |batch| && (|Ids(batch)| == |batch| <==> Distinct(batch))
    decreases |batch|
  {
    if batch == [] {
      assert Ids(batch) == {};
    } else {
      var init, last := batch[..|batch| - 1], batch[|batch| - 1];
      DistinctBySize(init);
      assert forall k :: 0 <= k < |init| ==> init[k] == batch[k];
      assert Ids(batch) == Ids(init) + {last.id};
      if Distinct(batch) { assert last.id !in Ids(init); }
    }
  }

  /** Each outcome of a batch of distinct ids is fenced on its own: it is judged by, and changes, the
      row it found before the batch, whatever the other outcomes are. */
  lemma {:induction false} EachOnItsOwn(db: Db, batch: seq<Outcome>, at: Time, retryAt: Id -> Time, id: Id)
    requires Distinct(batch)
    ensures
      var after := OneByOne(db, batch, at, retryAt);
      && after.rows.Keys == db.rows.Keys
      && (id !in Ids(batch) ==> Find(after.rows, id) == Find(db.rows, id))
      && (forall k | 0 <= k < |batch| && batch[k].id == id ::
            Find(after.rows, id) == Find(Run(db, Sql(id, OpOf(batch[k], at, retryAt))).rows, id))
    decreases |batch|
  {
    if batch != [] {
      var init, last := batch[..|batch| - 1], batch[|batch| - 1];
      assert forall k :: 0 <= k < |init| ==> init[k] == batch[k];
      assert Ids(batch) == Ids(init) + {last.id};
      EachOnItsOwn(db, init, at, retryAt, id);
      assert id == last.id ==> id !in Ids(init);
    }
  }

  lemma OneIsConcluded(db: Db, batch: seq<Outcome>, at: Time, retryAt: Id -> Time, k: nat)
    requires Distinct(batch) && k < |batch|
    ensures Takes(db, batch[k], at, retryAt) <==> Fenced(db, batch[k])
    ensures
      var after := OneByOne(db, batch, at, retryAt);
      Fenced(db, batch[k]) ==>
        batch[k].id in after.rows && Concludes(db.rows[batch[k].id], batch[k], at, retryAt(batch[k].id), after.rows[batch[k].id])
  {
    EachOnItsOwn(db, batch, at, retryAt, batch[k].id);
    TakenIsConcluded(db, batch[k], at, retryAt);
    hide Concludes, Distinct, OneByOne;
  }

  /** One statement over a whole batch. Refused for more than 256 outcomes or a repeated id;
      otherwise the answer names exactly the ids whose own token and precondition held, with the
      state their row reached, and every other row is untouched. */
  method CompleteBatch(db: Db, batch: seq<Outcome>, at: Time, retryAt: Id -> Time) returns (r: Answer, after: Db)
    ensures r.InvalidInput? <==> |batch| > 256 || !Distinct(batch)
    ensures r.InvalidInput? ==> after == db
    ensures r.States? ==>
      && (forall id :: id in r.states <==> exists k :: 0 <= k < |batch| && batch[k].id == id && Fenced(db, batch[k]))
      && (forall id | id in r.states :: id in after.rows && after.rows[id].state == r.states[id])
      && (forall k | 0 <= k < |batch| && Fenced(db, batch[k]) ::
            batch[k].id in after.rows && Concludes(db.rows[batch[k].id], batch[k], at, retryAt(batch[k].id), after.rows[batch[k].id]))
      && after.rows.Keys == db.rows.Keys
      && (forall id | id in db.rows && id !in r.states :: after.rows[id] == db.rows[id])
  {
    hide Concludes, Fenced;
    if batch == [] { return States(map[]), db; }
    DistinctBySize(batch);
    if |batch| > 256 || |Ids(batch)| != |batch| { return InvalidInput, db; }
    after := db;
    var states: map<Id, State> := map[];
    for i := 0 to |batch|
      invariant after == OneByOne(db, batch[..i], at, retryAt)
      invariant forall id :: id in states <==> exists k :: 0 <= k < i && batch[k].id == id && Takes(db, batch[k], at, retryAt)
      invariant forall id | id in states :: id in after.rows && after.rows[id].state == states[id]
    {
      var c := batch[i];
      var done := batch[..i];
      assert batch[..i + 1][..i] == done;
      assert c.id !in Ids(done);
      EachOnItsOwn(db, done, at, retryAt, c.id);
      assert c.id !in states;
      if Takes(after, c, at, retryAt) {
        after := Run(after, Sql(c.id, OpOf(c, at, retryAt)));
        states := states[c.id := after.rows[c.id].state];
      }
    }
    assert batch[..|batch|] == batch;
    forall id | id in db.rows ensures id in after.rows && (id !in states ==> after.rows[id] == db.rows[id]) {
      EachOnItsOwn(db, batch, at, retryAt, id);
    }
    forall k | 0 <= k < |batch|
      ensures Takes(db, batch[k], at, retryAt) <==> Fenced(db, batch[k])
      ensures Fenced(db, batch[k]) ==>
        batch[k].id in after.rows && Concludes(db.rows[batch[k].id], batch[k], at, retryAt(batch[k].id), after.rows[batch[k].id])
    {
      OneIsConcluded(db, batch, at, retryAt, k);
    }
    EachOnItsOwn(db, batch, at, retryAt, 0);
    r := States(states);
  }

  /** The order of a batch does not matter for the rows. */
  lemma BatchOrderIsFree(db: Db, batch: seq<Outcome>, other: seq<Outcome>, at: Time, retryAt: Id -> Time)
    requires Distinct(batch) && Distinct(other) && forall c :: c in batch <==> c in other
    ensures OneByOne(db, batch, at, retryAt).rows == OneByOne(db, other, at, retryAt).rows
  {
    var one, two := OneByOne(db, batch, at, retryAt).rows, OneByOne(db, other, at, retryAt).rows;
    forall id ensures Find(one, id) == Find(two, id) {
      EachOnItsOwn(db, batch, at, retryAt, id);
      EachOnItsOwn(db, other, at, retryAt, id);
      if id in Ids(batch) {
        var k :| 0 <= k < |batch| && batch[k].id == id;
        assert batch[k] in other;
      } else if id in Ids(other) {
        var k :| 0 <= k < |other| && other[k].id == id;
        assert other[k] in batch;
      }
    }
    assert forall id :: (id in one <==> Find(one, id).Some?) && (id in two <==> Find(two, id).Some?);
  }

  function Jobs(entries: seq<Completions.Entry>): seq<Outcome> {
    seq(|entries|, i requires 0 <= i < |entries| => entries[i].job)
  }

  /** In every run of a worker's batcher, no write is ever refused as invalid input. */
  lemma BatcherIsNeverRefused(steps: seq<Completions.Step>, i: nat)
    requires i < |Completions.Exec(steps).writes|
    ensures
      var batch := Jobs(Completions.Exec(steps).writes[i].jobs);
      batch != [] && |batch| <= 256 && Distinct(batch)
  {
    CompletionsRuns.WritesAreAdmissible(steps, i);
  }
}
