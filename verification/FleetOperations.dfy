/** What one step of the fleet does: exactly when it takes effect, and what it leaves behind. Together with
    the account of every write in FleetOutcomes this says what each operation is for. */
module FleetOperations {
  import opened Rows
  import opened Fleet
  import opened FleetLease
  import opened FleetHistory
  import opened FleetFence
  import opened FleetTangle

  /** The step published one write of task id and touched no other row. */
  predicate Published(s: World, s': World, id: Id, op: Op) {
    && id in s.db.rows && id in s'.db.rows
    && s'.db.log == s.db.log + [Entry(id, op, Some(s.db.rows[id]), s'.db.rows[id])]
    && s'.db.rows == s.db.rows[id := s'.db.rows[id]]
  }

  /** Somebody active holds the key. */
  predicate KeyTaken(rows: map<Id, Row>, typ: string, key: Option<string>, id: Id) {
    key.Some? && exists j | j in rows && j != id :: rows[j].state.Active() && rows[j].typ == typ && rows[j].key == key
  }

  // ------------------------------------------------------------------------------ publishers, operators

  /** An enqueue adds one row with a fresh id that holds what was asked for, unless an active task has
      the same type and key. */
  lemma EnqueueAddsTheTask(s: World, typ: string, key: Option<string>, maxAttempts: nat, runAt: Time)
    requires RowsOk(s.db)
    ensures
      var s' := Next(s, Enqueue(typ, key, maxAttempts, runAt));
      var id := s.db.nextId;
      if KeyTaken(s.db.rows, typ, key, id) || maxAttempts == 0 then s' == s
      else
        && id !in s.db.rows && id in s'.db.rows && s'.db.rows == s.db.rows[id := s'.db.rows[id]] && s'.db.nextId > id
        && var r := s'.db.rows[id];
        && r.typ == typ && r.key == key && r.maxAttempts == maxAttempts && r.runAt == runAt
        && r.state.Queued? && r.attempt == 0 && r.failures == 0 && r.cancelRequestedAt.None?
  {
  }

  /** A cancel request ends a queued task at once; a running one it flags, keeping the first request; it
      does nothing else. */
  lemma CancelRequestLands(s: World, id: Id, at: Time)
    requires RowsOk(s.db)
    ensures
      var s' := Next(s, AskCancel(id, at));
      if id in s.db.rows && s.db.rows[id].state.Queued? then Published(s, s', id, RequestCancel(at)) && s'.db.rows[id].state.Cancelled?
      else if id in s.db.rows && s.db.rows[id].state.Running? then
        && s.db.rows[id].token.Some? && s'.db.flagged == s.db.flagged + {s.db.rows[id].token.value}
        && s'.db.rows == s.db.rows[id := s'.db.rows[id]] && s'.db.log == s.db.log
        && var first := s.db.rows[id].cancelRequestedAt;
        s'.db.rows[id] == s.db.rows[id].(cancelRequestedAt := if first.Some? then first else Some(at))
      else s' == s
  {
    if id in s.db.rows { assert Shaped(s.db.rows[id]); }
  }

  /** The reaper takes a row exactly when its lease has run out by the statement's own clock. */
  lemma ReapTakesTheExpired(s: World, id: Id, at: Time, retryAt: Time)
    ensures
      var s' := Next(s, ReapRow(id, at, retryAt));
      if at <= s.now && id in s.db.rows && s.db.rows[id].state.Running? && s.db.rows[id].leaseUntil.Some? && s.db.rows[id].leaseUntil.value < at
      then Published(s, s', id, Reap(at, retryAt)) && s'.db.rows[id].token.None? && !s'.db.rows[id].state.Running?
      else s' == s
  {
  }

  /** A requeue revives a failed or cancelled task whose key is free, with its whole budget. */
  lemma RequeueRevives(s: World, id: Id, at: Time)
    ensures
      var s' := Next(s, RequeueRow(id, at));
      if id in s.db.rows && (s.db.rows[id].state.Failed? || s.db.rows[id].state.Cancelled?)
         && !KeyTaken(s.db.rows, s.db.rows[id].typ, s.db.rows[id].key, id)
      then
        && Published(s, s', id, Requeue(at))
        && var r := s'.db.rows[id]; r.state.Queued? && r.failures == 0 && r.cancelRequestedAt.None? && r.runAt == at
      else s' == s
  {
  }

  /** Retention forgets a task exactly when it finished before the cut-off. */
  lemma PurgeForgets(s: World, id: Id, before: Time)
    ensures
      var s' := Next(s, PurgeRow(id, before));
      if id in s.db.rows && s.db.rows[id].state.Terminal() && s.db.rows[id].finishedAt.Some? && s.db.rows[id].finishedAt.value < before
      then s' == s.(db := s.db.(rows := s.db.rows - {id}))
      else s' == s
  {
  }

  // -------------------------------------------------------------------------------- claims and releases

  /** A claim takes a row exactly when it is queued and due, for the claiming worker, under a token never
      drawn before, with a whole lease from the statement's stamp, counted as one more attempt. */
  lemma ClaimTakesTheDue(s: World, w: Worker, id: Id, at: Time, stamp: Time)
    ensures
      var p, t := PhaseOf(s, w), |s.db.issued|;
      var s' := Next(s, ClaimRow(w, id, at, stamp));
      if p.Claiming? && p.since <= stamp <= s.now && id in s.db.rows && s.db.rows[id].state.Queued? && s.db.rows[id].runAt <= at then
        && Published(s, s', id, Claim(t, w, at, stamp + p.lease))
        && PhaseOf(s', w) == Claiming(p.since, p.lease, p.got[t := id])
        && s'.db.issued == s.db.issued + [Issue(id, w)]
        && s'.db.rows[id] == s.db.rows[id].(state := Running, attempt := s.db.rows[id].attempt + 1, token := Some(t),
             leaseUntil := Some(stamp + p.lease), worker := Some(w), progress := None)
      else s' == s
  {
  }

  /** A claim whose reply was lost may still be run later: it takes the row and nobody is told. */
  lemma LateClaimTakesTheDue(s: World, w: Worker, id: Id, at: Time, leaseUntil: Time)
    ensures
      var s' := Next(s, LateClaim(w, id, at, leaseUntil));
      if id in s.db.rows && s.db.rows[id].state.Queued? && s.db.rows[id].runAt <= at then
        && Published(s, s', id, Claim(|s.db.issued|, w, at, leaseUntil)) && Holds(s'.db.rows[id], |s.db.issued|)
        && s' == s.(db := s'.db)
      else s' == s
  {
  }

  /** Rows a lost reply claimed are released: once the orphan release has looked at them, a release of
      each that the worker still holds and does not track is on its way. */
  lemma LostClaimIsReleased(s: World, w: Worker, ids: set<Id>, t: Token)
    requires RowsOk(s.db) && PhaseOf(s, w).Claiming? && t in PhaseOf(s, w).got
    ensures
      var id := PhaseOf(s, w).got[t];
      var s' := Next(Next(s, ClaimLost(w)), OrphanScan(w, ids));
      && PhaseOf(s', w).Releasing? && (w, LiveIds(s, w)) in s'.scans
      && (id in ids && id in s.db.rows && Holds(s.db.rows[id], t) && s.db.rows[id].worker == Some(w) && (w, id) !in s.tracked ==>
            Outcome(t, id, Release, None) in s'.wire)
  {
    var id := PhaseOf(s, w).got[t];
    var s1 := Next(s, ClaimLost(w));
    assert s1.db == s.db && s1.tracked == s.tracked && LiveIds(s1, w) == LiveIds(s, w);
    if id in ids && id in s.db.rows && Holds(s.db.rows[id], t) && s.db.rows[id].worker == Some(w) && (w, id) !in s.tracked {
      assert IsOrphan(s1, w, id);
      assert Outcome(t, id, Release, None) in Releases(s1, w, ids);
    }
  }

  /** A running row of worker w that a release with this list of live ids is for. */
  predicate Stranded(db: Db, w: Worker, live: set<Id>, id: Id, t: Token) {
    id in db.rows && Holds(db.rows[id], t) && db.rows[id].worker == Some(w) && id !in live
  }

  /** An orphan release, on time or late, releases exactly the running rows of its worker among those it
      looks at whose ids are not in the list it was sent with. */
  lemma OrphansAreReleasedIff(s: World, w: Worker, ids: set<Id>, live: set<Id>, id: Id, t: Token)
    requires Outcome(t, id, Release, None) !in s.wire
    ensures PhaseOf(s, w).Releasing? ==>
      (Outcome(t, id, Release, None) in Next(s, OrphanScan(w, ids)).wire <==> id in ids && Stranded(s.db, w, LiveIds(s, w), id, t))
    ensures (w, live) in s.scans ==>
      (Outcome(t, id, Release, None) in Next(s, LateScan(w, live, ids)).wire <==> id in ids && Stranded(s.db, w, live, id, t))
  {
    LiveIdsAreTracked(s, w, id);
    var m := Outcome(t, id, Release, None);
    if id in ids && Stranded(s.db, w, LiveIds(s, w), id, t) {
      assert IsOrphan(s, w, id);
      assert m in Releases(s, w, ids);
    }
    if id in ids && Stranded(s.db, w, live, id, t) {
      assert Unlisted(s, w, live, id);
      assert m in LateReleases(s, w, live, ids);
    }
  }

  /** The list an orphan release carries is that of the ids the worker tracks. */
  lemma LiveIdsAreTracked(s: World, w: Worker, id: Id)
    ensures id in LiveIds(s, w) <==> (w, id) in s.tracked
  {
    if (w, id) in s.tracked { assert (w, id).1 in LiveIds(s, w); }
  }

  /** Rows claimed while the worker shuts down go back: every one of them gets a release. */
  lemma UnstartedAreReleased(s: World, w: Worker, t: Token)
    requires PhaseOf(s, w).Starting? && t in PhaseOf(s, w).got
    ensures Outcome(t, PhaseOf(s, w).got[t], Release, None) in Next(s, ReleaseUnstarted(w)).wire
  {
  }

  /** A claimed row is started with the claim's own lease start, before anything else is known of it. */
  lemma StartFollowsTheClaim(s: World, w: Worker, t: Token)
    requires PhaseOf(s, w).Starting? && t in PhaseOf(s, w).got
    ensures
      var p := PhaseOf(s, w);
      var s' := Next(s, StartOne(w, t));
      && t in s'.attempts && s'.attempts[t] == Attempt(w, p.got[t], p.lease, p.since, None, None, false, false)
      && (w, p.got[t]) in s'.tracked && s'.tracked[(w, p.got[t])] == t && t !in PhaseOf(s', w).got
  {
  }

  // ----------------------------------------------------------------- what a running attempt sends and hears

  /** A completion lands exactly when its token holds the row, and a cancel only if one was requested; it
      lands as what the attempt submitted. */
  lemma CompletionLandsIff(s: World, m: Message, at: Time, retryAt: Time)
    requires m in s.wire && m.Outcome?
    ensures
      var s' := Next(s, Deliver(m, at, retryAt));
      if m.id in s.db.rows && Holds(s.db.rows[m.id], m.token) && (m.kind.Cancel? ==> s.db.rows[m.id].cancelRequestedAt.Some?)
      then Published(s, s', m.id, Complete(m.token, m.kind, m.data, at, retryAt)) && !s'.db.rows[m.id].state.Running?
      else s' == s
  {
  }

  /** A renewal extends the lease by a whole one from now exactly when its token holds the row, and its
      answer says so, with the lease start it was sent at and whether a cancel was requested. */
  lemma RenewalExtendsIff(s: World, m: Message, at: Time, retryAt: Time)
    requires m in s.wire && m.Renewal?
    ensures
      var s' := Next(s, Deliver(m, at, retryAt));
      if m.id in s.db.rows && Holds(s.db.rows[m.id], m.token) then
        && s'.db == s.db.(rows := s.db.rows[m.id := s.db.rows[m.id].(leaseUntil := Some(s.now + m.lease))])
        && s'.replies == s.replies + {Confirmed(m.token, m.started, s.db.rows[m.id].cancelRequestedAt.Some?)}
      else s'.db == s.db && s'.replies == s.replies + {Refused(m.token)}
  {
  }

  /** Progress is stored exactly when the token holds the row; otherwise the attempt is lost. */
  lemma ProgressIsStoredIff(s: World, t: Token, value: string)
    requires t in s.attempts
    ensures
      var id := s.attempts[t].id;
      var s' := Next(s, Report(t, value));
      if id in s.db.rows && Holds(s.db.rows[id], t) then
        s' == s.(db := s.db.(rows := s.db.rows[id := s.db.rows[id].(progress := Some(value))]))
      else s'.db == s.db && s'.attempts == s.attempts[t := Caused(s.attempts[t], Lost)]
  {
  }

  /** The first cause is kept. */
  function Caused(a: Attempt, cause: Cause): Attempt { a.(cause := if a.cause.Some? then a.cause else Some(cause)) }

  /** A confirmed reply gives the attempt the lease start it answers and, if flagged, the cause CANCEL; a
      refusal gives it the cause LOST; the first cause is kept, and nothing else changes. */
  lemma ReplyIsHeeded(s: World, r: Reply)
    requires r in s.replies && r.token in s.attempts
    ensures
      var a := s.attempts[r.token];
      Next(s, Receive(r)) == s.(attempts := s.attempts[r.token :=
        match r
        case Confirmed(_, started, flagged) => (if flagged then Caused(a, ByCancel) else a).(renewedAt := started)
        case Refused(_) => Caused(a, Lost)])
  {
  }

  /** A renewal goes out for an attempt within its lease that is neither settled nor lost; one whose lease
      has run out is lost instead. */
  lemma RenewalIsSent(s: World, t: Token)
    requires t in s.attempts
    ensures
      var a := s.attempts[t];
      var s' := Next(s, Renew(t));
      if s.now - a.renewedAt >= a.lease then s' == s.(attempts := s.attempts[t := Caused(a, Lost)])
      else if a.settled || a.cause == Some(Lost) then s' == s
      else s' == s.(wire := s.wire + {Renewal(t, a.id, s.now, a.lease)})
  {
  }

  /** After each round whatever is out of lease is lost; time-outs and the shutdown stop an attempt. */
  lemma StopsAreRecorded(s: World, t: Token, cause: Cause)
    requires t in s.attempts
    ensures
      var a := s.attempts[t];
      && Next(s, Sweep(t)) == (if s.now - a.renewedAt >= a.lease then s.(attempts := s.attempts[t := Caused(a, Lost)]) else s)
      && (cause.ByTimeout? || cause.ByShutdown? ==> Next(s, StopFor(t, cause)) == s.(attempts := s.attempts[t := Caused(a, cause)]))
  {
    assert s.attempts[t := s.attempts[t]] == s.attempts;
  }

  /** An attempt speaks once, and not after it is lost or settled; a cancel acknowledgement only when
      stopped for one. What it says goes out as said. */
  lemma OutcomeIsSentIff(s: World, t: Token, kind: Kind, data: Option<string>)
    requires t in s.attempts
    ensures
      var a := s.attempts[t];
      Next(s, Submit(t, kind, data)) ==
        if a.settled || a.submitted.Some? || a.cause == Some(Lost) || (kind.Cancel? && a.cause != Some(ByCancel)) then s
        else s.(attempts := s.attempts[t := a.(submitted := Some(kind))], wire := s.wire + {Outcome(t, a.id, kind, data)})
  {
  }

  // -------------------------------------------------------------------------------------- over whole runs

  /** What is decided about an attempt stays decided, whatever happens later: its cause, that it is
      settled, what it submitted; and a lost attempt that has not spoken never speaks. */
  predicate Decided(a: Attempt, b: Attempt) {
    && b.worker == a.worker && b.id == a.id && b.lease == a.lease
    && (a.cause.Some? ==> b.cause == a.cause)
    && (a.settled ==> b.settled) && (a.done ==> b.done)
    && (a.submitted.Some? ==> b.submitted == a.submitted)
    && (a.submitted.None? && (a.settled || a.cause == Some(Lost)) ==> b.submitted.None?)
  }

  ghost predicate AllDecided(s: World, s': World) {
    forall t | t in s.attempts :: t in s'.attempts && Decided(s.attempts[t], s'.attempts[t])
  }

  lemma LocalDecides(s: World, step: Step)
    requires RegistryOk(s)
    ensures AllDecided(s, Local(s, step))
  {
    hide RegistryOk, AllDecided, Local;
    if step.StartOne? { StartDecides(s, step.w, step.token); }
    else if step.Renew? || step.Receive? || step.Report? || step.Sweep? || step.StopFor? { StopsDecide(s, step); }
    else if step.Submit? || step.Settle? || step.Retire? { EndsDecide(s, step); }
    else { OthersDecide(s, step); }
  }

  lemma StartDecides(s: World, w: Worker, t: Token)
    requires RegistryOk(s)
    ensures AllDecided(s, Local(s, StartOne(w, t)))
  {
    if PhaseOf(s, w).Starting? && t in PhaseOf(s, w).got {
      assert ClaimedOk(s, w);
      assert t in GotOf(s, w);
    }
  }

  lemma StopsDecide(s: World, step: Step)
    requires step.Renew? || step.Receive? || step.Report? || step.Sweep? || step.StopFor?
    ensures AllDecided(s, Local(s, step))
  {
    hide Accepts;
  }

  lemma EndsDecide(s: World, step: Step)
    requires step.Submit? || step.Settle? || step.Retire?
    ensures AllDecided(s, Local(s, step))
  {
  }

  lemma OthersDecide(s: World, step: Step)
    requires !step.StartOne? && !step.Renew? && !step.Receive? && !step.Report? && !step.Sweep? && !step.StopFor?
    requires !step.Submit? && !step.Settle? && !step.Retire?
    ensures AllDecided(s, Local(s, step))
  {
    hide Query, Accepts, IsOrphan, Unlisted;
    assert Local(s, step).attempts == s.attempts;
  }

  lemma DecidedOn(a: Attempt, b: Attempt, c: Attempt)
    requires Decided(a, b) && Decided(b, c)
    ensures Decided(a, c)
  {
  }

  lemma {:induction false} DecisionsStand(steps: seq<Step>, more: seq<Step>)
    ensures AllDecided(Exec(Start, steps), Exec(Start, steps + more))
    decreases |more|
  {
    hide Local, Query, RegistryOk, Decided;
    var s := Exec(Start, steps);
    if more != [] {
      var before, step := more[..|more| - 1], more[|more| - 1];
      DecisionsStand(steps, before);
      var run := steps + more;
      assert run[..|run| - 1] == steps + before && run[|run| - 1] == step;
      var s1 := Exec(Start, steps + before);
      RunsKeepRegistry(steps + before);
      LocalDecides(s1, step);
      forall t | t in s.attempts ensures t in Exec(Start, run).attempts && Decided(s.attempts[t], Exec(Start, run).attempts[t]) {
        DecidedOn(s.attempts[t], s1.attempts[t], Exec(Start, run).attempts[t]);
      }
    } else {
      assert steps + more == steps;
      forall t | t in s.attempts ensures Decided(s.attempts[t], s.attempts[t]) { DecidedAlready(s.attempts[t]); }
    }
  }

  lemma DecidedAlready(a: Attempt)
    ensures Decided(a, a)
  {
  }

  /** Only attempts renew. */
  ghost predicate RenewalsOk(s: World) { forall m | m in s.wire && m.Renewal? :: m.token in s.attempts }

  lemma LocalKeepsRenewals(s: World, step: Step)
    requires RenewalsOk(s)
    ensures RenewalsOk(Local(s, step))
  {
    hide Query, Accepts, IsOrphan, Unlisted;
  }

  lemma {:induction false} RunsKeepRenewals(steps: seq<Step>)
    ensures RenewalsOk(Exec(Start, steps))
    decreases |steps|
  {
    hide Local, Query;
    if steps != [] {
      RunsKeepRenewals(steps[..|steps| - 1]);
      LocalKeepsRenewals(Exec(Start, steps[..|steps| - 1]), steps[|steps| - 1]);
    }
  }

  /** A cancel request reaches its attempt. Deliver any renewal of a token under which a request has been
      committed: it is answered with a refusal or with the flag, and whenever that answer is received,
      whatever came in between, the attempt has a cause from then on: the one it had, else CANCEL by the
      flag or LOST by the refusal. */
  lemma RequestReachesTheAttempt(steps: seq<Step>, m: Message, at: Time, retryAt: Time, more: seq<Step>) returns (r: Reply)
    requires m in Exec(Start, steps).wire && m.Renewal? && m.token in Exec(Start, steps).db.flagged
    ensures r.token == m.token && (r.Refused? || r == Confirmed(m.token, m.started, true))
    ensures
      var s := Exec(Start, steps + [Deliver(m, at, retryAt)] + more);
      var s' := Exec(Start, steps + [Deliver(m, at, retryAt)] + more + [Receive(r)]);
      && r in s.replies && m.token in s.attempts && m.token in s'.attempts
      && s'.attempts[m.token].cause ==
           if s.attempts[m.token].cause.Some? then s.attempts[m.token].cause else Some(if r.Refused? then Lost else ByCancel)
  {
    var s, deliver := Exec(Start, steps), Deliver(m, at, retryAt);
    RunsKeepCancel(steps);
    RunsKeepRenewals(steps);
    assert FlaggedRow(s.db, m.token);
    if m.id in s.db.rows { assert TokenOk(s.db, m.id); }
    r := if m.id in s.db.rows && Holds(s.db.rows[m.id], m.token) then Confirmed(m.token, m.started, true) else Refused(m.token);
    RenewalExtendsIff(s, m, at, retryAt);
    var run := steps + [deliver];
    assert run[..|steps|] == steps;
    assert r in Exec(Start, run).replies && m.token in Exec(Start, run).attempts;
    hide Exec, Next, RenewalsOk, CancelOk;
    RepliesStay(run, more, r);
    DecisionsStand(run, more);
    var last := run + more + [Receive(r)];
    assert last[..|run + more|] == run + more;
    ReplyIsHeeded(Exec(Start, run + more), r);
    OneMore(run + more, Receive(r));
  }

  lemma OneMore(steps: seq<Step>, step: Step)
    ensures Exec(Start, steps + [step]) == Next(Exec(Start, steps), step)
  {
    assert (steps + [step])[..|steps|] == steps;
  }

  lemma {:induction false} RepliesStay(steps: seq<Step>, more: seq<Step>, r: Reply)
    requires r in Exec(Start, steps).replies
    ensures r in Exec(Start, steps + more).replies
    decreases |more|
  {
    hide Query, Run, Accepts;
    if more != [] {
      RepliesStay(steps, more[..|more| - 1], r);
      assert (steps + more)[..|steps + more| - 1] == steps + more[..|more| - 1];
    } else {
      assert steps + more == steps;
    }
  }
}
