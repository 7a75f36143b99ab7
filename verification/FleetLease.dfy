/** Lease exclusion: which attempts are guaranteed to own their row, in every schedule. */
module FleetLease {
  import opened Rows
  import opened Fleet

  /** Every row is shaped, a row's token was drawn for that row and that worker, and ids are not reused. */
  ghost predicate RowsOk(db: Db) {
    && db.nextId >= 1
    && (forall id | id in db.rows :: id < db.nextId && Shaped(db.rows[id]) && TokenOk(db, id))
    && IssuedOk(db)
  }

  predicate IssuedOk(db: Db) { forall t | 0 <= t < |db.issued| :: db.issued[t].id < db.nextId }

  predicate TokenOk(db: Db, id: Id)
    requires id in db.rows
  {
    var r := db.rows[id];
    r.token.Some? ==> r.token.value < |db.issued| && r.worker.Some? && db.issued[r.token.value] == Issue(id, r.worker.value)
  }

  predicate SqlOk(db: Db, sql: Sql) {
    sql.Sql? ==>
      && (sql.op.Insert? ==> sql.id == db.nextId && KeyFree(db.rows, sql.op.typ, sql.op.key, sql.id))
      && (sql.op.Claim? ==> sql.op.token == |db.issued|)
      && (sql.op.Requeue? ==> sql.id in db.rows && KeyFree(db.rows, db.rows[sql.id].typ, db.rows[sql.id].key, sql.id))
  }

  lemma QueriesAreOk(s: World, step: Step)
    ensures SqlOk(s.db, Query(s, step))
  {
  }

  lemma RunKeepsRows(db: Db, sql: Sql)
    requires RowsOk(db) && SqlOk(db, sql)
    ensures RowsOk(Run(db, sql))
  {
    if sql.Sql? {
      WriteKeepsShape(sql.op, Find(db.rows, sql.id));
      var db' := Run(db, sql);
      forall id | id in db'.rows ensures id < db'.nextId && Shaped(db'.rows[id]) && TokenOk(db', id) {
        if id != sql.id { assert TokenOk(db, id); }
        if sql.id in db.rows { assert TokenOk(db, sql.id); }
      }
    }
  }

  /** A task that is there and has not succeeded is waiting to be claimed, or can be claimed again after
      a reap, a release or a requeue. */
  predicate Open(db: Db, id: Id) { id in db.rows && !db.rows[id].state.Succeeded? }

  lemma ClosedForGood(db: Db, sql: Sql, id: Id)
    requires RowsOk(db) && SqlOk(db, sql) && id < db.nextId
    ensures Open(Run(db, sql), id) ==> Open(db, id)
  {
    if sql.Sql? && id in db.rows { assert Shaped(db.rows[id]); }
  }

  // ------------------------------------------------------------------------- the lease invariant

  /** A completion for this token is on the wire. */
  ghost predicate Spent(s: World, t: Token) {
    exists m :: m in s.wire && m.Outcome? && m.token == t
  }

  predicate Owns(db: Db, t: Token, until: Time) {
    && t < |db.issued|
    && db.issued[t].id in db.rows
    && var r := db.rows[db.issued[t].id];
    && Holds(r, t)
    && r.leaseUntil.Some? && r.leaseUntil.value >= until
  }

  ghost predicate Backed(s: World, t: Token, until: Time) {
    s.now >= until || Spent(s, t) || Owns(s.db, t, until)
  }

  ghost predicate AttemptOk(s: World, t: Token)
    requires t in s.attempts
  {
    var a := s.attempts[t];
    && t < |s.db.issued| && s.db.issued[t] == Issue(a.id, a.worker)
    && a.renewedAt <= s.now
    && (a.done ==> a.settled)
    && (!a.done && Open(s.db, a.id) ==> (a.worker, a.id) in s.tracked && s.tracked[(a.worker, a.id)] == t)
    && Backed(s, t, a.renewedAt + a.lease)
  }

  ghost predicate GotOk(s: World, w: Worker, t: Token, id: Id, since: Time, lease: Time) {
    && t < |s.db.issued| && s.db.issued[t] == Issue(id, w)
    && t !in s.attempts
    && Backed(s, t, since + lease)
  }

  ghost predicate PhaseOk(s: World, w: Worker)
    requires w in s.phases
  {
    var p := s.phases[w];
    p.Claiming? || p.Starting? ==>
      p.since <= s.now && forall t | t in p.got :: GotOk(s, w, t, p.got[t], p.since, p.lease)
  }

  predicate MessageOk(s: World, m: Message) {
    match m
    case Renewal(t, id, started, lease) =>
      t in s.attempts && s.attempts[t].id == id && s.attempts[t].lease == lease && started <= s.now
    case Outcome(t, id, _, _) => t < |s.db.issued| && s.db.issued[t].id == id
  }

  ghost predicate ReplyOk(s: World, r: Reply) {
    && r.token in s.attempts
    && (r.Confirmed? ==> r.started <= s.now && Backed(s, r.token, r.started + s.attempts[r.token].lease))
  }

  ghost predicate LeaseOk(s: World) {
    && (forall t | t in s.attempts :: AttemptOk(s, t))
    && (forall w | w in s.phases :: PhaseOk(s, w))
    && (forall m | m in s.wire :: MessageOk(s, m))
    && (forall r | r in s.replies :: ReplyOk(s, r))
  }

  function GotOf(s: World, w: Worker): map<Token, Id> {
    var p := PhaseOf(s, w);
    if p.Claiming? || p.Starting? then p.got else map[]
  }

  // --------------------------------------------------------- attempts that may count on their lease

  /** Running, not lost and silent. */
  predicate Working(a: Attempt) { !a.settled && a.cause != Some(Lost) && a.submitted.None? }

  /** A lease start that attempt t has, or may still be told: by a reply, or by a renewal under way that
      finds the row in its hands. */
  predicate LeaseStart(s: World, t: Token, since: Time)
    requires t in s.attempts
  {
    var a := s.attempts[t];
    || since == a.renewedAt
    || Confirmed(t, since, false) in s.replies || Confirmed(t, since, true) in s.replies
    || (Renewal(t, a.id, since, a.lease) in s.wire && a.id in s.db.rows && Holds(s.db.rows[a.id], t))
  }

  ghost predicate CanWork(s: World, t: Token) {
    t in s.attempts && Working(s.attempts[t]) && exists since :: LeaseStart(s, t, since) && s.now - since < s.attempts[t].lease
  }

  predicate YoungClaim(s: World, w: Worker) {
    var p := PhaseOf(s, w);
    (p.Claiming? || p.Starting?) && s.now - p.since < p.lease
  }

  ghost predicate CanStart(s: World, t: Token) { exists w :: t in GotOf(s, w) && YoungClaim(s, w) }

  /** The holder of token t may count on its lease, now or later: an attempt at work with a lease start
      younger than the lease, or a claimed row still to be started whose claim is younger than that. */
  ghost predicate CanCount(s: World, t: Token) { CanWork(s, t) || CanStart(s, t) }

  /** Nobody counts on a token with a completion on the wire, nor ever will. */
  ghost predicate SpentOk(s: World) {
    forall t: Token | Spent(s, t) :: t < |s.db.issued| && !CanCount(s, t)
  }

  /** The worker starts no row whose id it still tracks, unless the task is over. */
  predicate Untangled(s: World, step: Step) {
    step.StartOne? ==>
      var p := PhaseOf(s, step.w);
      p.Starting? && step.token in p.got && Open(s.db, p.got[step.token]) ==> (step.w, p.got[step.token]) !in s.tracked
  }

  /** An orphan release that runs late finds no row whose holder may count on its lease. */
  ghost predicate Punctual(s: World, step: Step) {
    step.LateScan? && (step.w, step.live) in s.scans ==>
      forall id | id in step.ids && Unlisted(s, step.w, step.live, id) :: !CanCount(s, s.db.rows[id].token.value)
  }

  /** Nothing starts what is tracked, and nothing scans too late. */
  ghost predicate Orderly(s: World, step: Step) { Untangled(s, step) && Punctual(s, step) }

  /** Completions carry a spent token, renewals one that a controller follows, for a lease
      counted from now, and reaps no time in the future. */
  ghost predicate Fair(s: World, sql: Sql) {
    sql.Sql? ==>
      && (sql.op.Complete? ==> Spent(s, sql.op.token))
      && (sql.op.Beat? ==> sql.op.token in s.attempts && sql.op.leaseUntil == s.now + s.attempts[sql.op.token].lease)
      && (sql.op.Reap? ==> sql.op.at <= s.now)
  }

  lemma QueriesAreFair(s: World, step: Step)
    requires LeaseOk(s)
    ensures Fair(s, Query(s, step))
  {
    if step.Deliver? && step.m in s.wire { assert MessageOk(s, step.m); }
  }

  /** In a state of the invariant, a step takes a row from the holder of token t only by delivering t's
      own completion or by reaping a lease that has run out; and while t holds the row, a step leaves
      its lease alone or renews it for a whole lease from now. */
  lemma OnlyOwnersEnd(s: World, step: Step, id: Id, t: Token)
    requires RowsOk(s.db) && LeaseOk(s) && id in s.db.rows && Holds(s.db.rows[id], t)
    ensures
      var sql, db := Query(s, step), Next(s, step).db;
      var held := id in db.rows && Holds(db.rows[id], t);
      && (!held ==>
            && sql.Sql? && sql.id == id
            && ((sql.op.Complete? && sql.op.token == t && Spent(s, t))
                || (sql.op.Reap? && s.db.rows[id].leaseUntil.Some? && s.db.rows[id].leaseUntil.value < s.now)))
      && (held ==>
            || db.rows[id].leaseUntil == s.db.rows[id].leaseUntil
            || (t in s.attempts && db.rows[id].leaseUntil == Some(s.now + s.attempts[t].lease)))
  {
    assert Shaped(s.db.rows[id]);
    hide Query, Run, LeaseOk, RowsOk, Local, Shaped, Holds, Spent;
    QueriesAreFair(s, step);
    StatementOnHeldRow(s.db, Query(s, step), id, t);
  }

  /** What one statement can do to a row that is held. */
  lemma StatementOnHeldRow(db: Db, sql: Sql, id: Id, t: Token)
    requires id in db.rows && Shaped(db.rows[id]) && Holds(db.rows[id], t)
    ensures
      var db' := Run(db, sql);
      if id in db'.rows && Holds(db'.rows[id], t) then
        || db'.rows[id].leaseUntil == db.rows[id].leaseUntil
        || (sql.Sql? && sql.op.Beat? && sql.op.token == t && db'.rows[id].leaseUntil == Some(sql.op.leaseUntil))
      else
        && sql.Sql? && sql.id == id
        && ((sql.op.Complete? && sql.op.token == t)
            || (sql.op.Reap? && db.rows[id].leaseUntil.Some? && db.rows[id].leaseUntil.value < sql.op.at))
  {
  }

  lemma RunKeepsBacked(s: World, sql: Sql, t: Token, until: Time)
    requires RowsOk(s.db) && Fair(s, sql) && Backed(s, t, until)
    requires t in s.attempts ==> until <= s.now + s.attempts[t].lease
    ensures Backed(s.(db := Run(s.db, sql)), t, until)
  {
    var s' := s.(db := Run(s.db, sql));
    if Spent(s, t) {
      assert Spent(s', t);
    } else if s.now < until {
      var id := s.db.issued[t].id;
      assert Owns(s.db, t, until);
      if sql.Sql? && sql.id == id {
        assert Shaped(s.db.rows[id]);
        assert Owns(s'.db, t, until);
      } else {
        assert Owns(s'.db, t, until);
      }
    }
  }

  lemma RunKeepsLease(s: World, sql: Sql)
    requires RowsOk(s.db) && SqlOk(s.db, sql) && LeaseOk(s) && Fair(s, sql)
    ensures LeaseOk(s.(db := Run(s.db, sql)))
  {
    var s' := s.(db := Run(s.db, sql));
    forall t | t in s'.attempts ensures AttemptOk(s', t) {
      assert AttemptOk(s, t);
      ClosedForGood(s.db, sql, s.attempts[t].id);
      RunKeepsBacked(s, sql, t, s.attempts[t].renewedAt + s.attempts[t].lease);
    }
    forall w | w in s'.phases ensures PhaseOk(s', w) { RunKeepsPhase(s, sql, w); }
    forall m | m in s'.wire ensures MessageOk(s', m) { assert MessageOk(s, m); }
    forall r | r in s'.replies ensures ReplyOk(s', r) {
      assert ReplyOk(s, r);
      if r.Confirmed? { RunKeepsBacked(s, sql, r.token, r.started + s.attempts[r.token].lease); }
    }
  }

  lemma RunKeepsPhase(s: World, sql: Sql, w: Worker)
    requires RowsOk(s.db) && LeaseOk(s) && Fair(s, sql) && w in s.phases
    ensures PhaseOk(s.(db := Run(s.db, sql)), w)
  {
    var s' := s.(db := Run(s.db, sql));
    assert PhaseOk(s, w);
    var p := s.phases[w];
    if p.Claiming? || p.Starting? {
      forall t | t in p.got ensures GotOk(s', w, t, p.got[t], p.since, p.lease) {
        assert GotOk(s, w, t, p.got[t], p.since, p.lease);
        RunKeepsBacked(s, sql, t, p.since + p.lease);
      }
    }
  }

  // ------------------------------------------------- the worker-side halves of a step, on their own

  lemma TickKeepsLease(s: World, elapsed: Time)
    requires LeaseOk(s) && elapsed >= 0.0
    ensures LeaseOk(s.(now := s.now + elapsed))
  {
    var s' := s.(now := s.now + elapsed);
    assert forall t :: Spent(s', t) == Spent(s, t);
    assert forall t, until :: Backed(s, t, until) ==> Backed(s', t, until);
    forall t | t in s'.attempts ensures AttemptOk(s', t) { assert AttemptOk(s, t); }
    forall w | w in s'.phases ensures PhaseOk(s', w) { assert PhaseOk(s, w); }
    forall m | m in s'.wire ensures MessageOk(s', m) { assert MessageOk(s, m); }
    forall r | r in s'.replies ensures ReplyOk(s', r) { assert ReplyOk(s, r); }
  }

  /** A controller may change its cause, submit, settle, or take a backed lease start. */
  lemma SetAttemptKeepsLease(s: World, t: Token, a: Attempt)
    requires LeaseOk(s) && t in s.attempts
    requires
      var b := s.attempts[t];
      && a.worker == b.worker && a.id == b.id && a.lease == b.lease && a.done == b.done
      && (b.settled ==> a.settled)
    requires a.renewedAt <= s.now && Backed(s, t, a.renewedAt + a.lease)
    ensures LeaseOk(SetAttempt(s, t, a))
  {
    var s' := SetAttempt(s, t, a);
    assert forall u :: Spent(s', u) == Spent(s, u);
    assert forall u, until :: Backed(s, u, until) ==> Backed(s', u, until);
    forall u | u in s'.attempts ensures AttemptOk(s', u) { assert AttemptOk(s, u); }
    forall w | w in s'.phases ensures PhaseOk(s', w) { SameGot(s, s', w); }
    forall m | m in s'.wire ensures MessageOk(s', m) { assert MessageOk(s, m); }
    forall r | r in s'.replies ensures ReplyOk(s', r) { assert ReplyOk(s, r); }
  }

  /** Claimed rows stay fine when nothing they depend on changes. */
  lemma SameGot(s: World, s': World, w: Worker)
    requires w in s.phases && w in s'.phases && s.phases[w] == s'.phases[w] && PhaseOk(s, w)
    requires s'.db == s.db && s'.now == s.now && s'.wire == s.wire
    requires s'.attempts.Keys == s.attempts.Keys
    ensures PhaseOk(s', w)
  {
    var p := s.phases[w];
    assert forall u :: Spent(s', u) == Spent(s, u);
    if p.Claiming? || p.Starting? {
      forall t | t in p.got ensures GotOk(s', w, t, p.got[t], p.since, p.lease) {
        assert GotOk(s, w, t, p.got[t], p.since, p.lease);
        assert Backed(s', t, p.since + p.lease);
      }
    }
  }

  lemma StopKeepsLease(s: World, t: Token, cause: Cause)
    requires LeaseOk(s)
    ensures LeaseOk(StopAttempt(s, t, cause))
  {
    if t in s.attempts {
      assert AttemptOk(s, t);
      SetAttemptKeepsLease(s, t, Stopped(s.attempts[t], cause));
    }
  }

  lemma SendKeepsLease(s: World, more: set<Message>)
    requires LeaseOk(s)
    requires forall m | m in more :: MessageOk(s, m)
    ensures LeaseOk(s.(wire := s.wire + more))
  {
    var s' := s.(wire := s.wire + more);
    assert forall t :: Spent(s, t) ==> Spent(s', t);
    assert forall t, until :: Backed(s, t, until) ==> Backed(s', t, until);
    forall t | t in s'.attempts ensures AttemptOk(s', t) { assert AttemptOk(s, t); }
    forall w | w in s'.phases ensures PhaseOk(s', w) {
      assert PhaseOk(s, w);
      var p := s.phases[w];
      if p.Claiming? || p.Starting? {
        forall t | t in p.got ensures GotOk(s', w, t, p.got[t], p.since, p.lease) {
          assert GotOk(s, w, t, p.got[t], p.since, p.lease);
        }
      }
    }
    forall m | m in s'.wire ensures MessageOk(s', m) {
      if m in s.wire { assert MessageOk(s, m); } else { assert m in more; }
    }
    forall r | r in s'.replies ensures ReplyOk(s', r) { assert ReplyOk(s, r); }
  }

  lemma AnswerKeepsLease(s: World, r: Reply)
    requires LeaseOk(s) && ReplyOk(s, r)
    ensures LeaseOk(s.(replies := s.replies + {r}))
  {
    var s' := s.(replies := s.replies + {r});
    assert forall t :: Spent(s', t) == Spent(s, t);
    assert forall t, until :: Backed(s, t, until) ==> Backed(s', t, until);
    forall t | t in s'.attempts ensures AttemptOk(s', t) { assert AttemptOk(s, t); }
    forall w | w in s'.phases ensures PhaseOk(s', w) { SameGot(s, s', w); }
    forall m | m in s'.wire ensures MessageOk(s', m) { assert MessageOk(s, m); }
    forall q | q in s'.replies ensures ReplyOk(s', q) {
      if q in s.replies { assert ReplyOk(s, q); } else { assert q == r; }
    }
  }

  lemma SetPhaseKeepsLease(s: World, w: Worker, p: Phase)
    requires LeaseOk(s)
    requires p.Claiming? || p.Starting? ==>
      p.since <= s.now && forall t | t in p.got :: GotOk(s, w, t, p.got[t], p.since, p.lease)
    ensures LeaseOk(SetPhase(s, w, p))
  {
    var s' := SetPhase(s, w, p);
    assert forall t :: Spent(s', t) == Spent(s, t);
    assert forall t, until :: Backed(s, t, until) ==> Backed(s', t, until);
    forall t | t in s'.attempts ensures AttemptOk(s', t) { assert AttemptOk(s, t); }
    forall v | v in s'.phases ensures PhaseOk(s', v) {
      if v != w { SameGot(s, s', v); }
      else if p.Claiming? || p.Starting? {
        forall t | t in p.got ensures GotOk(s', w, t, p.got[t], p.since, p.lease) {
          assert GotOk(s, w, t, p.got[t], p.since, p.lease);
        }
      }
    }
    forall m | m in s'.wire ensures MessageOk(s', m) { assert MessageOk(s, m); }
    forall r | r in s'.replies ensures ReplyOk(s', r) { assert ReplyOk(s, r); }
  }

  /** Starting a claimed row: its controller inherits the claim's own lease start. */
  lemma StartKeepsLease(s: World, w: Worker, t: Token)
    requires LeaseOk(s) && PhaseOf(s, w).Starting? && t in PhaseOf(s, w).got
    requires Untangled(s, StartOne(w, t))
    ensures LeaseOk(Local(s, StartOne(w, t)))
  {
    var p := PhaseOf(s, w);
    var s' := Local(s, StartOne(w, t));
    assert PhaseOk(s, w) && GotOk(s, w, t, p.got[t], p.since, p.lease);
    assert forall u :: Spent(s', u) == Spent(s, u);
    assert forall u, until :: Backed(s, u, until) ==> Backed(s', u, until);
    forall u | u in s'.attempts ensures AttemptOk(s', u) {
      if u != t { assert AttemptOk(s, u); }
    }
    forall v | v in s'.phases ensures PhaseOk(s', v) {
      assert PhaseOk(s, v);
      var q := s'.phases[v];
      if q.Claiming? || q.Starting? {
        forall u | u in q.got ensures GotOk(s', v, u, q.got[u], q.since, q.lease) {
          assert GotOk(s, v, u, q.got[u], q.since, q.lease);
          assert u != t;
        }
      }
    }
    forall m | m in s'.wire ensures MessageOk(s', m) { assert MessageOk(s, m); }
    forall r | r in s'.replies ensures ReplyOk(s', r) { assert ReplyOk(s, r); }
  }

  /** `_attempt_done` of an attempt that is still the registered one. */
  lemma RetireKeepsLease(s: World, t: Token)
    requires LeaseOk(s) && t in s.attempts && s.attempts[t].settled && !s.attempts[t].done
    ensures LeaseOk(Local(s, Retire(t)))
  {
    var s' := Local(s, Retire(t));
    assert AttemptOk(s, t);
    assert forall u :: Spent(s', u) == Spent(s, u);
    assert forall u, until :: Backed(s, u, until) ==> Backed(s', u, until);
    forall u | u in s'.attempts ensures AttemptOk(s', u) { assert AttemptOk(s, u); }
    forall w | w in s'.phases ensures PhaseOk(s', w) { SameGot(s, s', w); }
    forall m | m in s'.wire ensures MessageOk(s', m) { assert MessageOk(s, m); }
    forall r | r in s'.replies ensures ReplyOk(s', r) { assert ReplyOk(s, r); }
  }

  // ------------------------------------------------------------------------------- every schedule

  lemma ReleasesKeepLease(s: World, more: set<Message>)
    requires RowsOk(s.db) && LeaseOk(s)
    requires forall m | m in more :: m.Outcome? && m.id in s.db.rows && s.db.rows[m.id].token == Some(m.token)
    ensures LeaseOk(s.(wire := s.wire + more))
  {
    forall m | m in more ensures MessageOk(s, m) { assert TokenOk(s.db, m.id); }
    SendKeepsLease(s, more);
  }

  lemma ScansKeepLease(s: World, scans: set<(Worker, set<Id>)>)
    requires LeaseOk(s)
    ensures LeaseOk(s.(scans := scans))
  {
    var s' := s.(scans := scans);
    assert forall t :: Spent(s, t) ==> Spent(s', t);
    assert forall t, until :: Backed(s, t, until) ==> Backed(s', t, until);
    forall t | t in s'.attempts ensures AttemptOk(s', t) { assert AttemptOk(s, t); }
    forall w | w in s'.phases ensures PhaseOk(s', w) {
      assert PhaseOk(s, w);
      forall t | t in GotOf(s', w) ensures GotOk(s', w, t, s.phases[w].got[t], s.phases[w].since, s.phases[w].lease) {
        assert GotOk(s, w, t, s.phases[w].got[t], s.phases[w].since, s.phases[w].lease);
      }
    }
    forall m | m in s'.wire ensures MessageOk(s', m) { assert MessageOk(s, m); }
    forall r | r in s'.replies ensures ReplyOk(s', r) { assert ReplyOk(s, r); }
  }

  lemma UnstartedKeepsLease(s: World, w: Worker)
    requires RowsOk(s.db) && LeaseOk(s) && PhaseOf(s, w).Starting?
    ensures LeaseOk(Local(s, ReleaseUnstarted(w)))
  {
    var p := PhaseOf(s, w);
    var s1 := SetPhase(s, w, Idle);
    SetPhaseKeepsLease(s, w, Idle);
    assert PhaseOk(s, w);
    forall m | m in Unstarted(p.got) ensures MessageOk(s1, m) { assert GotOk(s, w, m.token, p.got[m.token], p.since, p.lease); }
    SendKeepsLease(s1, Unstarted(p.got));
  }

  lemma ClaimKeepsLease(s: World, w: Worker, id: Id, at: Time, stamp: Time)
    requires RowsOk(s.db) && LeaseOk(s)
    requires Query(s, ClaimRow(w, id, at, stamp)).Sql?
    ensures LeaseOk(Next(s, ClaimRow(w, id, at, stamp)))
  {
    QueriesAreOk(s, ClaimRow(w, id, at, stamp));
    var sql := Query(s, ClaimRow(w, id, at, stamp));
    var s1 := s.(db := Run(s.db, sql));
    RunKeepsLease(s, sql);
    if Accepts(s.db, sql.id, sql.op) {
      var p := PhaseOf(s, w);
      var t := |s.db.issued|;
      assert PhaseOk(s1, w);
      assert forall u | u in s.attempts :: AttemptOk(s, u);
      assert t !in s.attempts;
      assert Owns(s1.db, t, p.since + p.lease);
      var got := p.got[t := id];
      forall u | u in got ensures GotOk(s1, w, u, got[u], p.since, p.lease) {
        if u != t { assert GotOk(s1, w, u, p.got[u], p.since, p.lease); }
      }
      SetPhaseKeepsLease(s1, w, Claiming(p.since, p.lease, got));
    }
  }

  lemma SubmitKeepsLease(s: World, t: Token, kind: Kind, data: Option<string>)
    requires LeaseOk(s) && t in s.attempts && MaySubmit(s.attempts[t], kind)
    ensures LeaseOk(Local(s, Submit(t, kind, data)))
  {
    assert AttemptOk(s, t);
    var s1 := SetAttempt(s, t, s.attempts[t].(submitted := Some(kind)));
    SetAttemptKeepsLease(s, t, s1.attempts[t]);
    assert MessageOk(s1, Outcome(t, s.attempts[t].id, kind, data));
    hide LeaseOk, AttemptOk;
    SendKeepsLease(s1, {Outcome(t, s.attempts[t].id, kind, data)});
  }

  lemma ReceiveKeepsLease(s: World, r: Reply)
    requires LeaseOk(s) && r in s.replies
    ensures LeaseOk(ReceiveReply(s, r))
  {
    assert ReplyOk(s, r);
    if r.Refused? {
      StopKeepsLease(s, r.token, Lost);
    } else {
      var a := s.attempts[r.token].(renewedAt := r.started);
      SetAttemptKeepsLease(s, r.token, if r.flagged then Stopped(a, ByCancel) else a);
    }
  }

  lemma DeliverKeepsLease(s: World, m: Message, at: Time, retryAt: Time)
    requires RowsOk(s.db) && LeaseOk(s) && m in s.wire
    ensures LeaseOk(Next(s, Deliver(m, at, retryAt)))
  {
    var sql := Query(s, Deliver(m, at, retryAt));
    QueriesAreFair(s, Deliver(m, at, retryAt));
    QueriesAreOk(s, Deliver(m, at, retryAt));
    RunKeepsLease(s, sql);
    if m.Renewal? {
      var s1 := s.(db := Run(s.db, sql));
      assert MessageOk(s, m) && AttemptOk(s, m.token);
      var r := AnswerOf(s, m);
      if r.Confirmed? { assert Owns(s1.db, m.token, m.started + s.attempts[m.token].lease); }
      AnswerKeepsLease(s1, r);
    }
  }

  /** Steps of a worker's claim loop. */
  lemma ClaimStepsKeepLease(s: World, step: Step)
    requires RowsOk(s.db) && LeaseOk(s) && Untangled(s, step)
    requires step.ClaimBegin? || step.ClaimAnswered? || step.ClaimLost? || step.StartOne? || step.StartsDone?
    ensures LeaseOk(Local(s, step))
  {
    match step
    case ClaimBegin(w, lease) => if PhaseOf(s, w).Idle? && lease > 0.0 { SetPhaseKeepsLease(s, w, Claiming(s.now, lease, map[])); }
    case ClaimAnswered(w) =>
      var p := PhaseOf(s, w);
      if p.Claiming? { assert PhaseOk(s, w); SetPhaseKeepsLease(s, w, Starting(p.since, p.lease, p.got)); }
    case ClaimLost(w) => SetPhaseKeepsLease(s, w, Releasing);
    case StartOne(w, t) => if PhaseOf(s, w).Starting? && t in PhaseOf(s, w).got { StartKeepsLease(s, w, t); }
    case StartsDone(w) => SetPhaseKeepsLease(s, w, Idle);
    case _ =>
  }

  /** Steps that send releases. */
  lemma ReleaseStepsKeepLease(s: World, step: Step)
    requires RowsOk(s.db) && LeaseOk(s)
    requires step.ReleaseUnstarted? || step.OrphanScan? || step.LateScan? || step.OrphansDone?
    ensures LeaseOk(Local(s, step))
  {
    match step
    case ReleaseUnstarted(w) => if PhaseOf(s, w).Starting? { UnstartedKeepsLease(s, w); }
    case OrphanScan(w, ids) =>
      if PhaseOf(s, w).Releasing? {
        ReleasesKeepLease(s, Releases(s, w, ids));
        ScansKeepLease(s.(wire := s.wire + Releases(s, w, ids)), s.scans + {(w, LiveIds(s, w))});
      }
    case LateScan(w, live, ids) => if (w, live) in s.scans { ReleasesKeepLease(s, LateReleases(s, w, live, ids)); }
    case OrphansDone(w) => SetPhaseKeepsLease(s, w, Idle);
    case _ =>
  }

  /** Steps that may stop an attempt, and of the renewal loop. */
  lemma StopStepsKeepLease(s: World, step: Step)
    requires LeaseOk(s)
    requires step.Renew? || step.Receive? || step.Report? || step.Sweep? || step.StopFor?
    ensures LeaseOk(Local(s, step))
  {
    match step
    case Renew(t) =>
      if t in s.attempts {
        StopKeepsLease(s, t, Lost);
        assert AttemptOk(s, t);
        SendKeepsLease(s, {Renewal(t, s.attempts[t].id, s.now, s.attempts[t].lease)});
      }
    case Receive(r) => if r in s.replies { ReceiveKeepsLease(s, r); }
    case Report(t, _) => StopKeepsLease(s, t, Lost);
    case Sweep(t) => StopKeepsLease(s, t, Lost);
    case StopFor(t, cause) => StopKeepsLease(s, t, cause);
    case _ =>
  }

  /** Steps by which an attempt ends. */
  lemma EndStepsKeepLease(s: World, step: Step)
    requires LeaseOk(s)
    requires step.Submit? || step.Settle? || step.Retire?
    ensures LeaseOk(Local(s, step))
  {
    match step
    case Submit(t, kind, data) => if t in s.attempts && MaySubmit(s.attempts[t], kind) { SubmitKeepsLease(s, t, kind, data); }
    case Settle(t) =>
      if t in s.attempts { assert AttemptOk(s, t); SetAttemptKeepsLease(s, t, s.attempts[t].(settled := true)); }
    case Retire(t) => if t in s.attempts && s.attempts[t].settled && !s.attempts[t].done { RetireKeepsLease(s, t); }
    case _ =>
  }

  /** Steps that change nothing but the worker's own state. */
  lemma LocalKeepsLease(s: World, step: Step)
    requires RowsOk(s.db) && LeaseOk(s) && Untangled(s, step)
    requires !step.ClaimRow? && !step.Deliver?
    ensures LeaseOk(Local(s, step))
  {
    if step.Tick? { if step.elapsed >= 0.0 { TickKeepsLease(s, step.elapsed); } }
    hide LeaseOk, Untangled, RowsOk;
    if step.ClaimBegin? || step.ClaimAnswered? || step.ClaimLost? || step.StartOne? || step.StartsDone? {
      ClaimStepsKeepLease(s, step);
    } else if step.ReleaseUnstarted? || step.OrphanScan? || step.LateScan? || step.OrphansDone? {
      ReleaseStepsKeepLease(s, step);
    } else if step.Renew? || step.Receive? || step.Report? || step.Sweep? || step.StopFor? {
      StopStepsKeepLease(s, step);
    } else if step.Submit? || step.Settle? || step.Retire? {
      EndStepsKeepLease(s, step);
    }
  }

  lemma StepKeepsLease(s: World, step: Step)
    requires RowsOk(s.db) && LeaseOk(s) && Untangled(s, step)
    ensures RowsOk(Next(s, step).db) && LeaseOk(Next(s, step))
  {
    QueriesAreOk(s, step);
    QueriesAreFair(s, step);
    hide RowsOk, LeaseOk, Untangled, SqlOk, Apply, Fair;
    RunKeepsRows(s.db, Query(s, step));
    LocalKeepsDb(s, step);
    if step.ClaimRow? {
      if Query(s, step).Sql? { ClaimKeepsLease(s, step.w, step.id, step.at, step.stamp); }
    } else if step.Deliver? {
      if step.m in s.wire { DeliverKeepsLease(s, step.m, step.at, step.retryAt); }
    } else {
      OtherStepKeepsLease(s, step);
    }
  }

  lemma LocalKeepsDb(s: World, step: Step)
    ensures Local(s, step).db == s.db
  {
  }

  lemma OtherStepKeepsLease(s: World, step: Step)
    requires RowsOk(s.db) && LeaseOk(s) && Untangled(s, step) && SqlOk(s.db, Query(s, step)) && Fair(s, Query(s, step))
    requires !step.ClaimRow? && !step.Deliver?
    ensures LeaseOk(Next(s, step))
  {
    LocalKeepsDb(s, step);
    assert Fair(Local(s, step), Query(s, step));
    hide RowsOk, LeaseOk, Local, Query, Fair, SqlOk;
    LocalKeepsLease(s, step);
    RunKeepsLease(Local(s, step), Query(s, step));
  }

  // ------------------------------------------------------ a token once given up on stays given up on

  /** The claims that t could be started from are no younger than before. */
  ghost predicate NoYounger(s: World, s': World, t: Token) {
    forall w | t in GotOf(s', w) && YoungClaim(s', w) :: t in GotOf(s, w) && YoungClaim(s, w)
  }

  /** Attempt t does not come back to work, and is told no lease start it could not be told before. */
  ghost predicate NoFresher(s: World, s': World, t: Token) {
    t in s'.attempts && Working(s'.attempts[t]) ==>
      && t in s.attempts && Working(s.attempts[t]) && s'.attempts[t].lease == s.attempts[t].lease && s.now <= s'.now
      && (forall since | LeaseStart(s', t, since) :: LeaseStart(s, t, since))
  }

  lemma NoHope(s: World, s': World, t: Token)
    requires NoYounger(s, s', t) && NoFresher(s, s', t)
    ensures CanCount(s', t) ==> CanCount(s, t)
  {
    if CanWork(s', t) {
      var since :| LeaseStart(s', t, since) && s'.now - since < s'.attempts[t].lease;
      assert LeaseStart(s, t, since);
    } else if CanStart(s', t) {
      var w :| t in GotOf(s', w) && YoungClaim(s', w);
      assert t in GotOf(s, w) && YoungClaim(s, w);
    }
  }

  /** Time, claims and releases. */
  lemma ClaimLoopGivesNoHope(s: World, step: Step, t: Token)
    requires step.Tick? || step.ClaimBegin? || step.ClaimRow? || step.ClaimAnswered? || step.ClaimLost? || step.StartsDone?
          || step.ReleaseUnstarted? || step.OrphanScan? || step.LateScan? || step.OrphansDone?
    requires t < |s.db.issued|
    ensures CanCount(Local(s, step), t) ==> CanCount(s, t)
  {
    var s' := Local(s, step);
    assert NoYounger(s, s', t);
    assert NoFresher(s, s', t);
    NoHope(s, s', t);
  }

  lemma StartGivesNoHope(s: World, w: Worker, u: Token, t: Token)
    requires LeaseOk(s)
    ensures CanCount(Local(s, StartOne(w, u)), t) ==> CanCount(s, t)
  {
    var s' := Local(s, StartOne(w, u));
    assert NoYounger(s, s', t);
    if u == t && s' != s {
      if CanWork(s', t) {
        var since :| LeaseStart(s', t, since) && s'.now - since < s'.attempts[t].lease;
        assert PhaseOk(s, w);
        assert GotOk(s, w, t, PhaseOf(s, w).got[t], PhaseOf(s, w).since, PhaseOf(s, w).lease);
        assert forall r | r in s.replies :: ReplyOk(s, r);
        assert forall m | m in s.wire :: MessageOk(s, m);
        assert t in GotOf(s, w) && YoungClaim(s, w);
      }
    } else {
      assert NoFresher(s, s', t);
      NoHope(s, s', t);
    }
  }

  /** An attempt whose flags alone may change does not come back to work. */
  predicate FlagsOnly(s: World, s': World) {
    && s'.db == s.db && s'.now == s.now && s'.phases == s.phases && s'.replies == s.replies
    && (forall m | m in s'.wire && m.Renewal? :: m in s.wire)
    && s'.attempts.Keys == s.attempts.Keys
    && (forall u | u in s.attempts :: FlagsRise(s.attempts[u], s'.attempts[u]))
  }

  predicate FlagsRise(a: Attempt, b: Attempt) {
    b.id == a.id && b.lease == a.lease && b.renewedAt == a.renewedAt && (Working(b) ==> Working(a))
  }

  lemma FlagsGiveNoHope(s: World, s': World, t: Token)
    requires FlagsOnly(s, s')
    ensures CanCount(s', t) ==> CanCount(s, t)
  {
    assert NoYounger(s, s', t);
    assert NoFresher(s, s', t);
    NoHope(s, s', t);
  }

  /** Everything that stops, ends or unregisters an attempt. */
  lemma StoppingGivesNoHope(s: World, step: Step, t: Token)
    requires step.Report? || step.Sweep? || step.StopFor? || step.Submit? || step.Settle? || step.Retire?
    ensures CanCount(Local(s, step), t) ==> CanCount(s, t)
  {
    hide Local, CanCount, FlagsOnly;
    if step.Report? || step.Sweep? || step.StopFor? { StopsRaiseFlags(s, step); } else { EndsRaiseFlags(s, step); }
    FlagsGiveNoHope(s, Local(s, step), t);
  }

  lemma StopsRaiseFlags(s: World, step: Step)
    requires step.Report? || step.Sweep? || step.StopFor?
    ensures FlagsOnly(s, Local(s, step))
  {
    hide Accepts;
  }

  lemma EndsRaiseFlags(s: World, step: Step)
    requires step.Submit? || step.Settle? || step.Retire?
    ensures FlagsOnly(s, Local(s, step))
  {
  }

  /** A renewal is sent only by an attempt that counts on its lease already. */
  lemma RenewGivesNoHope(s: World, u: Token, t: Token)
    ensures CanCount(Local(s, Renew(u)), t) ==> CanCount(s, t)
  {
    var s' := Local(s, Renew(u));
    assert NoYounger(s, s', t);
    if t == u && t in s.attempts && s.now - s.attempts[t].renewedAt < s.attempts[t].lease {
      assert LeaseStart(s, t, s.attempts[t].renewedAt);
      if !CanWork(s, t) { assert NoFresher(s, s', t); NoHope(s, s', t); }
    } else {
      assert NoFresher(s, s', t);
      NoHope(s, s', t);
    }
  }

  lemma ReceiveGivesNoHope(s: World, r: Reply, t: Token)
    ensures CanCount(Local(s, Receive(r)), t) ==> CanCount(s, t)
  {
    var s' := Local(s, Receive(r));
    assert NoYounger(s, s', t);
    assert NoFresher(s, s', t);
    NoHope(s, s', t);
  }

  /** A renewal that is answered was under way and found the row in the attempt's hands. */
  lemma DeliverGivesNoHope(s: World, m: Message, at: Time, retryAt: Time, t: Token)
    requires LeaseOk(s)
    ensures CanCount(Local(s, Deliver(m, at, retryAt)), t) ==> CanCount(s, t)
  {
    var s' := Local(s, Deliver(m, at, retryAt));
    if m in s.wire && m.Renewal? { assert MessageOk(s, m); }
    assert NoYounger(s, s', t);
    assert NoFresher(s, s', t);
    NoHope(s, s', t);
  }

  lemma LocalGivesNoHope(s: World, step: Step, t: Token)
    requires LeaseOk(s) && t < |s.db.issued|
    ensures CanCount(Local(s, step), t) ==> CanCount(s, t)
  {
    if step.Enqueue? || step.LateClaim? || step.AskCancel? || step.ReapRow? || step.RequeueRow? || step.PurgeRow? { assert Local(s, step) == s; }
    hide LeaseOk, Local, CanCount;
    if step.StartOne? { StartGivesNoHope(s, step.w, step.token, t); }
    else if step.Renew? { RenewGivesNoHope(s, step.token, t); }
    else if step.Receive? { ReceiveGivesNoHope(s, step.r, t); }
    else if step.Deliver? { DeliverGivesNoHope(s, step.m, step.at, step.retryAt, t); }
    else if step.Report? || step.Sweep? || step.StopFor? || step.Submit? || step.Settle? || step.Retire? { StoppingGivesNoHope(s, step, t); }
    else if step.Tick? || step.ClaimBegin? || step.ClaimRow? || step.ClaimAnswered? || step.ClaimLost? || step.StartsDone?
      || step.ReleaseUnstarted? || step.OrphanScan? || step.LateScan? || step.OrphansDone? { ClaimLoopGivesNoHope(s, step, t); }
  }

  /** A statement never gives a row back to a token that was drawn before. */
  lemma RunGivesNoHope(s: World, sql: Sql, t: Token)
    requires SqlOk(s.db, sql) && t < |s.db.issued|
    ensures CanCount(s.(db := Run(s.db, sql)), t) ==> CanCount(s, t)
  {
    var s' := s.(db := Run(s.db, sql));
    assert forall id | id in s'.db.rows && Holds(s'.db.rows[id], t) :: id in s.db.rows && Holds(s.db.rows[id], t);
    hide Run;
    assert NoYounger(s, s', t);
    assert NoFresher(s, s', t);
    NoHope(s, s', t);
  }

  lemma StepGivesNoHope(s: World, step: Step, t: Token)
    requires LeaseOk(s) && t < |s.db.issued|
    ensures CanCount(Next(s, step), t) ==> CanCount(s, t)
  {
    QueriesAreOk(s, step);
    LocalKeepsDb(s, step);
    hide LeaseOk, Local, CanCount, SqlOk, Query, Run;
    LocalGivesNoHope(s, step, t);
    RunGivesNoHope(Local(s, step), Query(s, step), t);
  }

  // ---------------------------------------------------------- completions carry tokens given up on

  /** A completion that goes on the wire with this step. */
  predicate Sends(s: World, step: Step, t: Token) {
    match step
    case Submit(u, kind, _) => u == t && t in s.attempts && MaySubmit(s.attempts[t], kind)
    case ReleaseUnstarted(w) => PhaseOf(s, w).Starting? && t in PhaseOf(s, w).got
    case OrphanScan(w, ids) =>
      PhaseOf(s, w).Releasing? && exists id :: id in ids && IsOrphan(s, w, id) && s.db.rows[id].token == Some(t)
    case LateScan(w, live, ids) =>
      (w, live) in s.scans && exists id :: id in ids && Unlisted(s, w, live, id) && s.db.rows[id].token == Some(t)
    case _ => false
  }

  lemma SpentIsSent(s: World, step: Step, t: Token)
    ensures Spent(Next(s, step), t) ==> Spent(s, t) || Sends(s, step, t)
  {
    hide Query, Accepts, Run;
    var s' := Next(s, step);
    if Spent(s', t) && !Spent(s, t) {
      var m :| m in s'.wire && m.Outcome? && m.token == t;
      assert m !in s.wire;
      match step
      case OrphanScan(w, ids) =>
        var id :| id in ids && IsOrphan(s, w, id) && m == Outcome(s.db.rows[id].token.value, id, Release, None);
        assert s.db.rows[id].token == Some(t);
      case LateScan(w, live, ids) =>
        var id :| id in ids && Unlisted(s, w, live, id) && m == Outcome(s.db.rows[id].token.value, id, Release, None);
        assert s.db.rows[id].token == Some(t);
      case _ =>
    }
  }

  lemma GotIsIdle(s: World, w: Worker, t: Token)
    requires LeaseOk(s)
    ensures t in GotOf(s, w) ==> t < |s.db.issued| && s.db.issued[t].worker == w && t !in s.attempts
  {
    if t in GotOf(s, w) {
      assert PhaseOk(s, w);
      assert GotOk(s, w, t, s.phases[w].got[t], s.phases[w].since, s.phases[w].lease);
    }
  }

  lemma SubmitGivesUp(s: World, t: Token, kind: Kind, data: Option<string>)
    requires LeaseOk(s) && Sends(s, Submit(t, kind, data), t)
    ensures t < |s.db.issued| && !CanCount(Next(s, Submit(t, kind, data)), t)
  {
    assert AttemptOk(s, t);
    forall w ensures t !in GotOf(s, w) { GotIsIdle(s, w, t); }
    var s' := Next(s, Submit(t, kind, data));
    assert forall w :: GotOf(s', w) == GotOf(s, w);
  }

  lemma UnstartedGivesUp(s: World, w: Worker, t: Token)
    requires LeaseOk(s) && Sends(s, ReleaseUnstarted(w), t)
    ensures t < |s.db.issued| && !CanCount(Next(s, ReleaseUnstarted(w)), t)
  {
    GotIsIdle(s, w, t);
    forall v | v != w ensures t !in GotOf(s, v) { GotIsIdle(s, v, t); }
    var s' := Next(s, ReleaseUnstarted(w));
    assert forall v | v != w :: GotOf(s', v) == GotOf(s, v);
    assert GotOf(s', w) == map[];
  }

  /** An orphan's attempt has ended: an unfinished one of an open task is registered. */
  lemma OrphanGivesUp(s: World, w: Worker, ids: set<Id>, t: Token)
    requires RowsOk(s.db) && LeaseOk(s) && Sends(s, OrphanScan(w, ids), t)
    ensures t < |s.db.issued| && !CanCount(s, t)
  {
    var id :| id in ids && IsOrphan(s, w, id) && s.db.rows[id].token == Some(t);
    assert TokenOk(s.db, id);
    if t in s.attempts { assert AttemptOk(s, t); }
    forall v ensures t !in GotOf(s, v) { GotIsIdle(s, v, t); }
  }

  lemma LateGivesUp(s: World, step: Step, t: Token)
    requires RowsOk(s.db) && step.LateScan? && Punctual(s, step) && Sends(s, step, t)
    ensures t < |s.db.issued| && !CanCount(s, t)
  {
    var id :| id in step.ids && Unlisted(s, step.w, step.live, id) && s.db.rows[id].token == Some(t);
    assert TokenOk(s.db, id);
  }

  lemma SenderGivesUp(s: World, step: Step, t: Token)
    requires RowsOk(s.db) && LeaseOk(s) && Orderly(s, step) && Sends(s, step, t)
    ensures t < |s.db.issued| && !CanCount(Next(s, step), t)
  {
    hide RowsOk, LeaseOk, Next, CanCount, Punctual;
    match step
    case Submit(_, kind, data) => SubmitGivesUp(s, t, kind, data);
    case ReleaseUnstarted(w) => UnstartedGivesUp(s, w, t);
    case OrphanScan(w, ids) => OrphanGivesUp(s, w, ids, t); StepGivesNoHope(s, step, t);
    case LateScan(_, _, _) => LateGivesUp(s, step, t); StepGivesNoHope(s, step, t);
    case _ =>
  }

  lemma TokensOnlyGrow(s: World, step: Step)
    ensures s.db.issued <= Next(s, step).db.issued
  {
    hide Apply, Local, Query;
  }

  lemma StepKeepsSpent(s: World, step: Step)
    requires RowsOk(s.db) && LeaseOk(s) && SpentOk(s) && Orderly(s, step)
    ensures SpentOk(Next(s, step))
  {
    TokensOnlyGrow(s, step);
    hide RowsOk, LeaseOk, Orderly, Next, CanCount, Sends;
    forall t: Token | Spent(Next(s, step), t) ensures t < |Next(s, step).db.issued| && !CanCount(Next(s, step), t) {
      SpentIsSent(s, step, t);
      if Sends(s, step, t) { SenderGivesUp(s, step, t); } else { StepGivesNoHope(s, step, t); }
    }
  }

  // ------------------------------------------------------------------------------ every orderly run

  /** A schedule in which no worker starts a row it still tracks, unless the task is over, and no orphan
      release runs so late that it finds a row whose holder may count on its lease. */
  ghost predicate AlwaysOrderly(steps: seq<Step>)
    decreases |steps|
  {
    steps == [] ||
    var before := steps[..|steps| - 1];
    AlwaysOrderly(before) && Orderly(Exec(Start, before), steps[|steps| - 1])
  }

  lemma {:induction false} RunsKeepLease(steps: seq<Step>)
    requires AlwaysOrderly(steps)
    ensures RowsOk(Exec(Start, steps).db) && LeaseOk(Exec(Start, steps)) && SpentOk(Exec(Start, steps))
    decreases |steps|
  {
    hide Next, Untangled, Punctual;
    if steps != [] {
      var before := steps[..|steps| - 1];
      RunsKeepLease(before);
      StepKeepsLease(Exec(Start, before), steps[|steps| - 1]);
      StepKeepsSpent(Exec(Start, before), steps[|steps| - 1]);
    }
  }

  /** An attempt that is running, not lost, silent, and within its own reckoning of the lease. */
  predicate Confident(s: World, t: Token) {
    t in s.attempts && Working(s.attempts[t]) && s.now - s.attempts[t].renewedAt < s.attempts[t].lease
  }

  /** The token is current, the lease outlasts the attempt's own reckoning, no reap matches the row,
      and no other attempt of the task is confident, on any worker. */
  ghost predicate Exclusive(s: World, t: Token)
    requires t in s.attempts
  {
    var a := s.attempts[t];
    && a.id in s.db.rows && Holds(s.db.rows[a.id], t)
    && s.db.rows[a.id].leaseUntil.Some? && s.db.rows[a.id].leaseUntil.value >= a.renewedAt + a.lease
    && (forall at, retryAt | at <= s.now :: !Accepts(s.db, a.id, Reap(at, retryAt)))
    && (forall u | Confident(s, u) && s.attempts[u].id == a.id :: u == t)
  }

  /** Lease exclusion, in every schedule, whatever replies are lost, delayed, repeated or reordered. */
  lemma LeaseExclusion(steps: seq<Step>, t: Token)
    requires AlwaysOrderly(steps) && Confident(Exec(Start, steps), t)
    ensures Exclusive(Exec(Start, steps), t)
  {
    RunsKeepLease(steps);
    ConfidentExcludes(Exec(Start, steps), t);
  }

  lemma ConfidentExcludes(s: World, t: Token)
    requires LeaseOk(s) && SpentOk(s) && Confident(s, t)
    ensures Exclusive(s, t)
  {
    ConfidentOwns(s, t);
    forall u | Confident(s, u) && s.attempts[u].id == s.attempts[t].id ensures u == t { ConfidentOwns(s, u); }
  }

  lemma ConfidentOwns(s: World, t: Token)
    requires LeaseOk(s) && SpentOk(s) && Confident(s, t)
    ensures Owns(s.db, t, s.attempts[t].renewedAt + s.attempts[t].lease) && s.db.issued[t].id == s.attempts[t].id
  {
    assert AttemptOk(s, t);
    assert LeaseStart(s, t, s.attempts[t].renewedAt);
    assert CanWork(s, t);
  }
}
