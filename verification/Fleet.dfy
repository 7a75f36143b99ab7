/** Many workers, a reaper, operators and a network that delays, repeats and drops, stepping on
    shared rows. `Exec` runs any schedule; a step whose guard fails leaves the world unchanged. */
module Fleet {
  import opened Rows

  // ------------------------------------------------------------------------------- the database

  /** One applied, published write: the row it found and the row it left. */
  datatype Entry = Entry(id: Id, op: Op, before: Option<Row>, row: Row)

  datatype Issue = Issue(id: Id, worker: Worker)

  /** `issued[t]` says for which row and worker token t was drawn; `log` and `flagged` (tokens under
      which a cancel request was committed) record history. */
  datatype Db = Db(rows: map<Id, Row>, nextId: Id, issued: seq<Issue>, log: seq<Entry>, flagged: set<Token>)

  /** The statement a step runs, if any. */
  datatype Sql = NoSql | Sql(id: Id, op: Op)

  function Find(rows: map<Id, Row>, id: Id): Option<Row> {
    if id in rows then Some(rows[id]) else None
  }

  predicate Accepts(db: Db, id: Id, op: Op) {
    !Apply(op, Find(db.rows, id)).Rejected?
  }

  function Write(db: Db, id: Id, op: Op): Db {
    var found := Find(db.rows, id);
    match Apply(op, found)
    case Rejected => db
    case Deleted => db.(rows := db.rows - {id})
    case Wrote(row) =>
      Db(db.rows[id := row],
         if op.Insert? then db.nextId + 1 else db.nextId,
         if op.Claim? then db.issued + [Issue(id, op.worker)] else db.issued,
         if Publishes(op, row) then db.log + [Entry(id, op, found, row)] else db.log,
         if op.RequestCancel? && row.token.Some? then db.flagged + {row.token.value} else db.flagged)
  }

  function Run(db: Db, sql: Sql): Db {
    if sql.NoSql? then db else Write(db, sql.id, sql.op)
  }

  /** The partial unique index: no other active row has this type and key. */
  predicate KeyFree(rows: map<Id, Row>, typ: string, key: Option<string>, id: Id) {
    key.Some? ==> forall j | j in rows && j != id :: rows[j].state.Active() ==> rows[j].typ != typ || rows[j].key != key
  }

  // --------------------------------------------------------------------------------- the workers

  datatype Cause = ByTimeout | ByCancel | ByShutdown | Lost

  /** The controller of one claim; `lease` is its worker's lease_s. */
  datatype Attempt = Attempt(
    worker: Worker, id: Id, lease: Time, renewedAt: Time,
    cause: Option<Cause>, submitted: Option<Kind>, settled: bool, done: bool)

  /** The claim loop of one worker: a claim in flight, its rows being started, or the release of
      rows that a lost reply may have claimed. */
  datatype Phase =
    | Idle
    | Claiming(since: Time, lease: Time, got: map<Token, Id>)
    | Starting(since: Time, lease: Time, got: map<Token, Id>)
    | Releasing

  /** A statement sent to the database. It may run late, repeatedly or never. */
  datatype Message =
    | Renewal(token: Token, id: Id, started: Time, lease: Time)
    | Outcome(token: Token, id: Id, kind: Kind, data: Option<string>)

  /** What a renewal answered; the answer may be lost, delayed, repeated or overtaken. */
  datatype Reply =
    | Confirmed(token: Token, started: Time, flagged: bool)
    | Refused(token: Token)

  datatype World = World(
    db: Db, now: Time,
    attempts: map<Token, Attempt>, tracked: map<(Worker, Id), Token>, phases: map<Worker, Phase>,
    wire: set<Message>, replies: set<Reply>, scans: set<(Worker, set<Id>)>)

  const Start := World(Db(map[], 1, [], [], {}), 0.0, map[], map[], map[], {}, {}, {})

  datatype Step =
    | Tick(elapsed: Time)
    | Enqueue(typ: string, key: Option<string>, maxAttempts: nat, runAt: Time)
    | ClaimBegin(w: Worker, lease: Time)
    | ClaimRow(w: Worker, id: Id, at: Time, stamp: Time)
    | ClaimAnswered(w: Worker)
    | ClaimLost(w: Worker)
    | LateClaim(w: Worker, id: Id, at: Time, leaseUntil: Time)
    | StartOne(w: Worker, token: Token)
    | StartsDone(w: Worker)
    | ReleaseUnstarted(w: Worker)
    | OrphanScan(w: Worker, ids: set<Id>)
    | LateScan(w: Worker, live: set<Id>, ids: set<Id>)
    | OrphansDone(w: Worker)
    | Renew(token: Token)
    | Deliver(m: Message, at: Time, retryAt: Time)
    | Receive(r: Reply)
    | Report(token: Token, value: string)
    | Sweep(token: Token)
    | StopFor(token: Token, cause: Cause)
    | Submit(token: Token, kind: Kind, data: Option<string>)
    | Settle(token: Token)
    | Retire(token: Token)
    | AskCancel(id: Id, at: Time)
    | ReapRow(id: Id, at: Time, retryAt: Time)
    | RequeueRow(id: Id, at: Time)
    | PurgeRow(id: Id, before: Time)

  function PhaseOf(s: World, w: Worker): Phase {
    if w in s.phases then s.phases[w] else Idle
  }

  /** The statement a step runs. */
  function Query(s: World, step: Step): Sql {
    match step
    case Enqueue(typ, key, maxAttempts, runAt) =>
      if KeyFree(s.db.rows, typ, key, s.db.nextId) then Sql(s.db.nextId, Insert(typ, key, maxAttempts, runAt)) else NoSql
    case ClaimRow(w, id, at, stamp) =>
      var p := PhaseOf(s, w);
      if p.Claiming? && p.since <= stamp <= s.now then Sql(id, Claim(|s.db.issued|, w, at, stamp + p.lease)) else NoSql
    case LateClaim(w, id, at, leaseUntil) => Sql(id, Claim(|s.db.issued|, w, at, leaseUntil))
    case Deliver(m, at, retryAt) =>
      if m !in s.wire then NoSql
      else if m.Renewal? then Sql(m.id, Beat(m.token, s.now + m.lease))
      else Sql(m.id, Complete(m.token, m.kind, m.data, at, retryAt))
    case Report(token, value) =>
      if token in s.attempts then Sql(s.attempts[token].id, Progress(token, value)) else NoSql
    case AskCancel(id, at) => Sql(id, RequestCancel(at))
    case ReapRow(id, at, retryAt) => if at <= s.now then Sql(id, Reap(at, retryAt)) else NoSql
    case RequeueRow(id, at) =>
      if id in s.db.rows && KeyFree(s.db.rows, s.db.rows[id].typ, s.db.rows[id].key, id) then Sql(id, Requeue(at)) else NoSql
    case PurgeRow(id, before) => Sql(id, Purge(before))
    case _ => NoSql
  }

  /** `Attempt.stop`: the first cause wins. */
  function Stopped(a: Attempt, cause: Cause): Attempt {
    if a.cause.None? then a.(cause := Some(cause)) else a
  }

  function SetAttempt(s: World, token: Token, a: Attempt): World {
    s.(attempts := s.attempts[token := a])
  }

  function StopAttempt(s: World, token: Token, cause: Cause): World {
    if token in s.attempts then SetAttempt(s, token, Stopped(s.attempts[token], cause)) else s
  }

  function SetPhase(s: World, w: Worker, p: Phase): World {
    s.(phases := s.phases[w := p])
  }

  /** A renewal reply: LOST when refused, otherwise a new local lease start and perhaps CANCEL. */
  function ReceiveReply(s: World, r: Reply): World {
    if r.token !in s.attempts then s
    else if r.Refused? then StopAttempt(s, r.token, Lost)
    else
      var a := s.attempts[r.token].(renewedAt := r.started);
      SetAttempt(s, r.token, if r.flagged then Stopped(a, ByCancel) else a)
  }

  /** `_renew_attempts` for one attempt, up to the statement. */
  function SendRenewal(s: World, token: Token): World
    requires token in s.attempts
  {
    var a := s.attempts[token];
    if s.now - a.renewedAt >= a.lease then StopAttempt(s, token, Lost)
    else if !a.settled && a.cause != Some(Lost) then s.(wire := s.wire + {Renewal(token, a.id, s.now, a.lease)})
    else s
  }

  function AnswerOf(s: World, m: Message): Reply
    requires m.Renewal?
  {
    if Accepts(s.db, m.id, Beat(m.token, s.now + m.lease))
    then Confirmed(m.token, m.started, s.db.rows[m.id].cancelRequestedAt.Some?)
    else Refused(m.token)
  }

  /** _ORPHANS: a running row of this worker whose id it does not track. */
  predicate IsOrphan(s: World, w: Worker, id: Id) {
    && id in s.db.rows
    && s.db.rows[id].state.Running? && s.db.rows[id].token.Some? && s.db.rows[id].worker == Some(w)
    && (w, id) !in s.tracked
  }

  /** The list of live ids that an orphan release carries, fixed when the statement is sent. */
  function LiveIds(s: World, w: Worker): set<Id> { set k | k in s.tracked && k.0 == w :: k.1 }

  /** The same, seen by a statement that runs late with an old list. */
  predicate Unlisted(s: World, w: Worker, live: set<Id>, id: Id) {
    && id in s.db.rows
    && s.db.rows[id].state.Running? && s.db.rows[id].token.Some? && s.db.rows[id].worker == Some(w)
    && id !in live
  }

  function LateReleases(s: World, w: Worker, live: set<Id>, ids: set<Id>): set<Message> {
    set id | id in ids && Unlisted(s, w, live, id) :: Outcome(s.db.rows[id].token.value, id, Release, None)
  }

  function Releases(s: World, w: Worker, ids: set<Id>): set<Message> {
    set id | id in ids && IsOrphan(s, w, id) :: Outcome(s.db.rows[id].token.value, id, Release, None)
  }

  function Unstarted(got: map<Token, Id>): set<Message> {
    set t | t in got :: Outcome(t, got[t], Release, None)
  }

  /** `_finish_*`: nothing after LOST, and a cancel acknowledgement only for a cancelled attempt. */
  predicate MaySubmit(a: Attempt, kind: Kind) {
    !a.settled && a.submitted.None? && a.cause != Some(Lost) && (kind.Cancel? ==> a.cause == Some(ByCancel))
  }

  /** What a step changes outside the database. */
  function Local(s: World, step: Step): World {
    match step
    case Tick(elapsed) => if elapsed >= 0.0 then s.(now := s.now + elapsed) else s
    case ClaimBegin(w, lease) =>
      if PhaseOf(s, w).Idle? && lease > 0.0 then SetPhase(s, w, Claiming(s.now, lease, map[])) else s
    case ClaimRow(w, id, _, _) =>
      var sql := Query(s, step);
      if sql.Sql? && Accepts(s.db, sql.id, sql.op) then
        var p := PhaseOf(s, w);
        SetPhase(s, w, Claiming(p.since, p.lease, p.got[|s.db.issued| := id]))
      else s
    case ClaimAnswered(w) =>
      var p := PhaseOf(s, w);
      if p.Claiming? then SetPhase(s, w, Starting(p.since, p.lease, p.got)) else s
    case ClaimLost(w) =>
      if PhaseOf(s, w).Claiming? then SetPhase(s, w, Releasing) else s
    case StartOne(w, token) =>
      var p := PhaseOf(s, w);
      if p.Starting? && token in p.got then
        SetPhase(s, w, Starting(p.since, p.lease, p.got - {token}))
        .(attempts := s.attempts[token := Attempt(w, p.got[token], p.lease, p.since, None, None, false, false)],
          tracked := s.tracked[(w, p.got[token]) := token])
      else s
    case StartsDone(w) =>
      var p := PhaseOf(s, w);
      if p.Starting? && p.got == map[] then SetPhase(s, w, Idle) else s
    case ReleaseUnstarted(w) =>
      var p := PhaseOf(s, w);
      if p.Starting? then SetPhase(s, w, Idle).(wire := s.wire + Unstarted(p.got)) else s
    case OrphanScan(w, ids) =>
      if PhaseOf(s, w).Releasing? then
        s.(wire := s.wire + Releases(s, w, ids), scans := s.scans + {(w, LiveIds(s, w))})
      else s
    case LateScan(w, live, ids) =>
      if (w, live) in s.scans then s.(wire := s.wire + LateReleases(s, w, live, ids)) else s
    case OrphansDone(w) => if PhaseOf(s, w).Releasing? then SetPhase(s, w, Idle) else s
    case Renew(token) => if token in s.attempts then SendRenewal(s, token) else s
    case Deliver(m, _, _) => if m in s.wire && m.Renewal? then s.(replies := s.replies + {AnswerOf(s, m)}) else s
    case Receive(r) => if r in s.replies then ReceiveReply(s, r) else s
    case Report(token, value) =>
      if token in s.attempts && !Accepts(s.db, s.attempts[token].id, Progress(token, value))
      then StopAttempt(s, token, Lost) else s
    case Sweep(token) =>
      if token in s.attempts && s.now - s.attempts[token].renewedAt >= s.attempts[token].lease
      then StopAttempt(s, token, Lost) else s
    case StopFor(token, cause) =>
      if cause.ByTimeout? || cause.ByShutdown? then StopAttempt(s, token, cause) else s
    case Submit(token, kind, data) =>
      if token in s.attempts && MaySubmit(s.attempts[token], kind) then
        SetAttempt(s, token, s.attempts[token].(submitted := Some(kind)))
        .(wire := s.wire + {Outcome(token, s.attempts[token].id, kind, data)})
      else s
    case Settle(token) =>
      if token in s.attempts then SetAttempt(s, token, s.attempts[token].(settled := true)) else s
    case Retire(token) =>
      // `_attempt_done` pops by task id, whichever attempt is registered there
      if token in s.attempts && s.attempts[token].settled && !s.attempts[token].done then
        SetAttempt(s, token, s.attempts[token].(done := true))
        .(tracked := s.tracked - {(s.attempts[token].worker, s.attempts[token].id)})
      else s
    case _ => s
  }

  function Next(s: World, step: Step): World {
    Local(s, step).(db := Run(s.db, Query(s, step)))
  }

  function Exec(s: World, steps: seq<Step>): World
    decreases |steps|
  {
    if steps == [] then s else Next(Exec(s, steps[..|steps| - 1]), steps[|steps| - 1])
  }
}
