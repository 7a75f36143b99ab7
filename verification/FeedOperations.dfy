/** What one step of the feed does: exactly when it takes effect and what it leaves behind; and that a
    feed delivers nothing before its generation's backfill is complete. */
module FeedOperations {
  import opened Rows
  import opened Feed
  import opened FeedPurity
  import opened FeedRuns

  // --------------------------------------------------------------------------------- registrations

  /** The first registration of a name draws a new generation and, if asked for, a marker with every state
      still at its beginning and the window; a later one changes the filters and nothing else, whatever
      it asks to backfill. A lock on the row makes it wait. */
  lemma RegisterInstalls(s: World, b: nat, filter: Filter, backfill: Option<Option<Time>>)
    ensures
      var s' := Next(s, Register(b, filter, backfill));
      if b in s.bfs || !s.lock.Free? then s' == s
      else
        && s'.reg.Some? && s'.reg.value.filter == filter && s'.tasks == s.tasks && s'.backlog == s.backlog && s'.txns == s.txns
        && var reg := s'.reg.value;
        && (s.reg.None? ==>
              && reg.gen == s.clock && reg.stable && reg.backfills == backfill.Some?
              && (backfill.None? ==> reg.marker.None?)
              && (backfill.Some? ==>
                    && reg.since == backfill.value && reg.marker.Some? && reg.marker.value.since == backfill.value
                    && reg.marker.value.pending.Keys == filter.states && forall st | st in filter.states :: reg.marker.value.pending[st] == 0))
        && (s.reg.Some? ==>
              && reg.gen == s.reg.value.gen && reg.marker == s.reg.value.marker && reg.since == s.reg.value.since
              && reg.backfills == s.reg.value.backfills && (reg.stable <==> s.reg.value.stable && s.reg.value.filter == filter))
        && b in s'.bfs && s'.bfs[b].gen == reg.gen && s'.bfs[b].phase == (if reg.marker.None? then Finished else Registered)
  {
  }

  // ---------------------------------------------------------------------- publishing, one row at a time

  /** A row locked by another open transaction, of a table that many write. */
  predicate RowLocked(s: World, t: nat, id: Id) { exists u | u in s.txns && u != t :: id in s.txns[u].writes }

  /** What the statement finds: the transaction's own version, else the committed one. */
  predicate Sees(s: World, t: nat, id: Id, found: Option<Row>)
    requires t in s.txns
  {
    if id in s.txns[t].writes then found == Some(s.txns[t].writes[id])
    else if id in s.tasks then found == Some(s.tasks[id])
    else found.None?
  }

  /** The registration that the statement saw matches, is still the one there, and still matches. */
  predicate Asked(s: World, t: nat, face: Face)
    requires t in s.txns
  {
    && s.txns[t].view.Open? && s.txns[t].view.reg.Some? && s.reg.Some? && s.txns[t].view.reg.value.gen == s.reg.value.gen
    && Matches(s.txns[t].view.reg.value.filter, face) && Matches(s.reg.value.filter, face)
  }

  /** One written row: it is buffered exactly when nobody else holds it; together with it, and only if the
      statement publishes and the registration asks for it, one event under the next number, showing
      the row as written, and a share of the registration's row; where an unsubscribe holds that row
      the whole statement waits. */
  lemma WritePublishesIff(s: World, t: nat, id: Id, op: Op, found: Option<Row>, row: Row)
    requires t in s.txns && s.txns[t].view.Open? && Sees(s, t, id, found) && Apply(op, found) == Wrote(row)
    requires op.Insert? ==> id == s.nextId
    ensures
      var s' := Next(s, Write(t, id, op));
      var x := s.txns[t];
      var event := Event(s.nextSeq, if s.reg.Some? then s.reg.value.gen else 0, id, FaceOf(row), false);
      var publishes := Publishes(op, row) && Asked(s, t, FaceOf(row));
      if RowLocked(s, t, id) || (publishes && s.lock.ByLeave?) then s' == s
      else
        && t in s'.txns && s'.txns == s.txns[t := s'.txns[t]] && s'.txns[t].writes == x.writes[id := row] && s'.tasks == s.tasks
        && s'.txns[t].events == (if publishes then x.events + {event} else x.events)
        && s'.txns[t].shares == (x.shares || publishes) && s'.txns[t].pulled == x.pulled
        && s'.nextSeq == s.nextSeq + (if publishes then 1 else 0) && s'.nextId == s.nextId + (if op.Insert? then 1 else 0)
        && s'.backlog == s.backlog && s'.reg == s.reg
  {
    hide *;
    WhatIsWritten(s, t, id, op, found, row);
    WrittenRow(s, t, id, op, row, Publishes(op, row) && Asked(s, t, FaceOf(row)));
    OwnNumber(s, id, row);
  }

  lemma OwnNumber(s: World, id: Id, row: Row)
    ensures s.reg.Some? ==> EventFor(s, id, row) == Event(s.nextSeq, s.reg.value.gen, id, FaceOf(row), false)
  {
  }

  lemma WhatIsWritten(s: World, t: nat, id: Id, op: Op, found: Option<Row>, row: Row)
    requires t in s.txns && s.txns[t].view.Open? && Sees(s, t, id, found) && Apply(op, found) == Wrote(row)
    requires op.Insert? ==> id == s.nextId
    ensures NewRow(s, t, id, op) == if RowLocked(s, t, id) then None else Some(row)
    ensures Emits(s, t, op, row) <==> Publishes(op, row) && Asked(s, t, FaceOf(row))
    ensures Asked(s, t, FaceOf(row)) ==> s.reg.Some?
  {
    hide Apply, Publishes, Matches;
    assert LockedByOther(s, t, id) <==> RowLocked(s, t, id);
  }

  lemma WrittenRow(s: World, t: nat, id: Id, op: Op, row: Row, publishes: bool)
    requires t in s.txns && (publishes ==> s.reg.Some?)
    requires NewRow(s, t, id, op) == (if RowLocked(s, t, id) then None else Some(row)) && (Emits(s, t, op, row) <==> publishes)
    ensures
      var s', x := Next(s, Write(t, id, op)), s.txns[t];
      if RowLocked(s, t, id) || (publishes && s.lock.ByLeave?) then s' == s
      else
        && t in s'.txns && s'.txns == s.txns[t := s'.txns[t]] && s'.txns[t].writes == x.writes[id := row] && s'.tasks == s.tasks
        && s'.txns[t].events == (if publishes then x.events + {EventFor(s, id, row)} else x.events)
        && s'.txns[t].shares == (x.shares || publishes) && s'.txns[t].pulled == x.pulled
        && s'.nextSeq == s.nextSeq + (if publishes then 1 else 0) && s'.nextId == s.nextId + (if op.Insert? then 1 else 0)
        && s'.backlog == s.backlog && s'.reg == s.reg
  {
    hide NewRow, Emits, RowLocked, Publishes, EventFor, MoveFor;
  }

  /** A statement that matches nothing writes nothing and publishes nothing. */
  lemma NoMatchNoWrite(s: World, t: nat, id: Id, op: Op, found: Option<Row>)
    requires t in s.txns && Sees(s, t, id, found) && !Apply(op, found).Wrote?
    ensures Next(s, Write(t, id, op)) == s
  {
  }

  /** Rows and events of a transaction become visible together, or neither does. */
  lemma CommitShowsBoth(s: World, t: nat)
    requires t in s.txns && forall c | c in s.feeds :: s.feeds[c].batch != Some(t)
    ensures
      var x := s.txns[t];
      && Next(s, Commit(t)) == s.(txns := s.txns - {t}, tasks := s.tasks + x.writes, backlog := s.backlog + x.events,
                                  published := s.published + x.events, story := s.story + x.moves)
      && Next(s, Abort(t)) == s.(txns := s.txns - {t})
  {
  }

  /** Each statement of a transaction sees the registration as committed when the statement begins. */
  lemma StatementsSeeTheRegistration(s: World, t: nat)
    requires t in s.txns
    ensures var s' := Next(s, Look(t)); t in s'.txns && s' == s.(txns := s'.txns) && s'.txns == s.txns[t := s.txns[t].(view := Open(s.reg))]
  {
  }

  // ------------------------------------------------------------------------------------- the backfill

  /** The barrier waits for exactly the transactions open when it is captured. */
  lemma BarrierCapturesTheOpen(s: World, b: nat)
    requires b in s.bfs && s.bfs[b].phase.Registered?
    ensures var s' := Next(s, Capture(b)); b in s'.bfs && s'.bfs[b] == Backfiller(s.bfs[b].gen, Waiting(s.txns.Keys)) && s'.txns == s.txns
  {
  }

  /** States are projected in the order of their names. */
  lemma StatesInNameOrder(pending: map<State, Id>)
    requires pending != map[]
    ensures
      var first := FirstPending(pending);
      first in pending && forall st | st in pending :: Name(first) <= Name(st)
  {
  }

  /** Where a state's name stands in the alphabet: cancelled, failed, queued, running, succeeded. */
  function Name(st: State): nat {
    match st
    case Cancelled => 0
    case Failed => 1
    case Queued => 2
    case Running => 3
    case Succeeded => 4
  }

  /** A chunk's events and the marker it leaves become visible together, and free the row. */
  lemma ChunkShowsBoth(s: World, b: nat)
    requires b in s.bfs && s.bfs[b].phase.Chunk? && s.bfs[b].phase.work.Some? && s.reg.Some?
    ensures
      var w := s.bfs[b].phase.work.value;
      var s' := Next(s, ChunkCommit(b));
      && s'.reg == Some(s.reg.value.(marker := w.marker)) && s'.lock.Free? && s'.tasks == s.tasks
      && (forall e :: e in s'.backlog <==> e in s.backlog || e in w.events)
      && (forall e :: e in s'.published <==> e in s.published || e in w.events)
      && b in s'.bfs && s'.bfs[b].phase == (if w.marker.None? then Finished else Scanning)
  {
  }

  /** A crash leaves no trace of the open chunk and frees the row. */
  lemma CrashLeavesNoTrace(s: World, b: nat)
    requires LockOk(s) && b in s.bfs
    ensures
      var s' := Next(s, Crash(b));
      && s'.reg == s.reg && s'.backlog == s.backlog && s'.published == s.published && s'.snaps == s.snaps
      && b in s'.bfs && s'.bfs[b].phase.Stopped? && s'.lock == (if s.bfs[b].phase.Chunk? then Free else s.lock)
  {
  }

  // -------------------------------------------------------------------------------------- consumption

  /** A feed starts with the generation of its run, closed exactly if that run was stopped. */
  lemma AttachStartsTheFeed(s: World, c: nat, b: nat)
    ensures
      var s' := Next(s, Attach(c, b));
      if c !in s.feeds && b in s.bfs && (s.bfs[b].phase.Finished? || s.bfs[b].phase.Stopped?) then
        s' == s.(feeds := s.feeds[c := Consumer(s.bfs[b].gen, s.bfs[b].phase.Stopped?, None)])
      else s' == s
  {
  }

  /** A pull closes the feed exactly when the registration is gone or replaced; otherwise it opens a batch,
      in its own transaction that shares the registration's row, if there is anything to take. */
  lemma PullOpensIff(s: World, c: nat, seqnos: set<nat>, size: nat)
    requires c in s.feeds && !s.feeds[c].closed && s.feeds[c].batch.None? && !s.lock.ByLeave? && IsPull(s, seqnos, size)
    ensures
      var s' := Next(s, Pull(c, seqnos, size));
      var f := s.feeds[c];
      if s.reg.None? || s.reg.value.gen != f.gen then s' == s.(feeds := s.feeds[c := f.(closed := true)])
      else if seqnos == {} then s' == s
      else
        && |seqnos| <= size
        && s'.feeds == s.feeds[c := f.(batch := Some(s.clock))] && s'.clock == s.clock + 1 && s'.backlog == s.backlog
        && s'.txns == s.txns[s.clock := Txn(Closed, map[], {}, true, seqnos, [])]
  {
  }

  /** A batch that is rolled back leaves its events where they were, and its reactions undone. */
  lemma RollbackReturnsTheBatch(s: World, c: nat)
    requires c in s.feeds && s.feeds[c].batch.Some?
    ensures
      var s' := Next(s, Rollback(c));
      && s' == s.(txns := s.txns - {s.feeds[c].batch.value}, feeds := s'.feeds)
      && s'.feeds == s.feeds[c := s.feeds[c].(batch := None)]
  {
  }

  /** Retention deletes the events it is told to that no open batch holds. */
  lemma ExpiryTakesTheUnheld(s: World, seqnos: set<nat>, e: Event)
    ensures
      var s' := Next(s, Expire(seqnos));
      var held := exists t | t in s.txns :: e.seqno in s.txns[t].pulled;
      && (e in s'.backlog <==> e in s.backlog && !(e.seqno in seqnos && !held))
      && (e in s'.expired <==> e in s.expired || (e in s.backlog && e.seqno in seqnos && !held))
  {
    assert Pulled(s, e.seqno) <==> exists t | t in s.txns :: e.seqno in s.txns[t].pulled;
  }

  /** Retention forgets a terminal task that no transaction has written. */
  lemma PurgeForgets(s: World, id: Id)
    requires ClockOk(s)
    ensures
      var s' := Next(s, PurgeTask(id));
      if id in s.tasks && s.tasks[id].state.Terminal() && forall u | u in s.txns :: id !in s.txns[u].writes
      then s' == s.(tasks := s.tasks - {id}) else s' == s
  {
  }

  // ------------------------------------------------------------------- nothing before the backfill is done

  /** A run that has finished, or a feed that is open, of the present generation: no marker is pending. */
  ghost predicate ReadyOk(s: World) {
    && (forall b | b in s.bfs && s.bfs[b].phase.Finished? :: Complete(s, s.bfs[b].gen))
    && (forall c | c in s.feeds && !s.feeds[c].closed :: Complete(s, s.feeds[c].gen))
    && (forall c | c in s.feeds && s.feeds[c].closed :: s.feeds[c].batch.None?)
  }

  predicate Complete(s: World, gen: nat) { s.reg.Some? && s.reg.value.gen == gen ==> s.reg.value.marker.None? }

  lemma TxnStepsStayReady(s: World, step: Step)
    requires ReadyOk(s)
    requires step.Begin? || step.Look? || step.Write? || step.Commit? || step.Abort? || step.Expire? || step.PurgeTask?
    ensures ReadyOk(Next(s, step))
  {
    hide Apply, Publishes;
  }

  lemma ConsumerStepsStayReady(s: World, step: Step)
    requires ReadyOk(s) && (step.Attach? || step.Pull? || step.Ack? || step.Rollback?)
    ensures ReadyOk(Next(s, step))
  {
    hide IsPull;
  }

  lemma LeaveStepsStayReady(s: World, step: Step)
    requires ReadyOk(s) && (step.Leave? || step.LeaveDone? || step.LeaveAbort?)
    ensures ReadyOk(Next(s, step))
  {
    if step.Leave? { LeaveMoves(s, step.u); hide StartLeaving; }
  }

  lemma RunStepsStayReady(s: World, step: Step)
    requires ReadyOk(s) && (step.Capture? || step.Poll? || step.ChunkLock? || step.Crash?)
    ensures ReadyOk(Next(s, step))
  {
  }

  lemma ScanStaysReady(s: World, b: nat, ids: seq<Id>, limit: nat)
    requires ReadyOk(s)
    ensures ReadyOk(Next(s, ChunkScan(b, ids, limit)))
  {
    hide Scans, Project;
  }

  lemma ChunkStaysReady(s: World, b: nat)
    requires LockOk(s) && ReadyOk(s)
    ensures ReadyOk(Next(s, ChunkCommit(b)))
  {
    assert b in s.bfs && s.bfs[b].phase.Chunk? ==> s.lock == ByChunk(b) && s.bfs[b].gen == s.reg.value.gen;
  }

  lemma BackfillStepsStayReady(s: World, step: Step)
    requires PurityOk(s) && ReadyOk(s)
    requires step.Capture? || step.Poll? || step.ChunkLock? || step.ChunkScan? || step.ChunkCommit? || step.Crash?
    ensures ReadyOk(Next(s, step))
  {
    assert LockOk(s);
    hide PurityOk, LockOk, ReadyOk, Next;
    match step
    case ChunkScan(b, ids, limit) => ScanStaysReady(s, b, ids, limit);
    case ChunkCommit(b) => ChunkStaysReady(s, b);
    case _ => RunStepsStayReady(s, step);
  }

  lemma RegisterStaysReady(s: World, b: nat, filter: Filter, backfill: Option<Option<Time>>)
    requires PurityOk(s) && ReadyOk(s)
    ensures ReadyOk(Next(s, Register(b, filter, backfill)))
  {
    hide IsBatch, TxnOk, FeedOk, WorkOk;
  }

  lemma {:induction false} RunsStayReady(steps: seq<Step>)
    ensures ReadyOk(Exec(steps))
    decreases |steps|
  {
    hide Next, PurityOk, ReadyOk, FeedInv;
    if steps == [] {
      StartIsReady();
    } else {
      var s, step := Exec(steps[..|steps| - 1]), steps[|steps| - 1];
      RunsStayReady(steps[..|steps| - 1]);
      RunsKeepFeed(steps[..|steps| - 1]);
      FeedIsPure(s);
      if step.Register? {
        RegisterStaysReady(s, step.b, step.filter, step.backfill);
      } else if step.Begin? || step.Look? || step.Write? || step.Commit? || step.Abort? || step.Expire? || step.PurgeTask? {
        TxnStepsStayReady(s, step);
      } else if step.Attach? || step.Pull? || step.Ack? || step.Rollback? {
        ConsumerStepsStayReady(s, step);
      } else if step.Leave? || step.LeaveDone? || step.LeaveAbort? {
        LeaveStepsStayReady(s, step);
      } else {
        BackfillStepsStayReady(s, step);
      }
    }
  }

  lemma FeedIsPure(s: World)
    requires FeedInv(s)
    ensures PurityOk(s)
  {
  }

  lemma StartIsReady()
    ensures ReadyOk(Start)
  {
  }

  /** A feed delivers nothing before its generation's backfill is complete: whenever a batch is open, or a
      run has reported that it finished, the registration's marker is cleared, if it is still the one. */
  lemma DeliveriesFollowTheBackfill(steps: seq<Step>, c: nat, b: nat)
    ensures
      var s := Exec(steps);
      && (c in s.feeds && s.feeds[c].batch.Some? ==> s.reg.Some? && s.reg.value.marker.None?)
      && (b in s.bfs && s.bfs[b].phase.Finished? && s.reg.Some? && s.reg.value.gen == s.bfs[b].gen ==> s.reg.value.marker.None?)
  {
    RunsStayReady(steps);
    RunsKeepFeed(steps);
    var s := Exec(steps);
    if c in s.feeds { assert FeedOk(s, c); }
  }
}
