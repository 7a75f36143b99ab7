/** What holds of the feed after any schedule. */
module FeedRuns {
  import opened Rows
  import opened Feed
  import opened FeedPurity
  import opened FeedDelivery
  import opened FeedNoGap
  import opened FeedBackfill

  ghost predicate FeedInv(s: World) {
    PurityOk(s) && DeliveryOk(s) && GapOk(s) && SnapsOk(s)
  }

  /** A consumer's batch transaction is open. */
  lemma BatchIsOpen(s: World, c: nat)
    requires PurityOk(s) && c in s.feeds && s.feeds[c].batch.Some?
    ensures s.feeds[c].batch.value in s.txns
  {
    assert FeedOk(s, c);
  }

  lemma StepKeepsPurity(s: World, step: Step)
    requires PurityOk(s)
    ensures PurityOk(Next(s, step))
  {
    hide PurityOk, WriteRow, CommitTxn, RegisterName, PollBarrier, LockChunk, ScanChunk, CommitChunk, PullBatch, AckBatch, StartLeaving, FinishLeaving;
    match step
    case Begin => BeginKeeps(s);
    case Look(t) => if t in s.txns { LookKeeps(s, t); }
    case Write(t, id, op) => if t in s.txns { WriteKeeps(s, t, id, op); }
    case Commit(t) => if t in s.txns && !IsBatch(s, t) { EndKeeps(s, t); }
    case Abort(t) => if t in s.txns && !IsBatch(s, t) { EndKeeps(s, t); }
    case Register(b, filter, backfill) => RegisterKeeps(s, b, filter, backfill);
    case Capture(b) => PhaseStepsKeep(s, step);
    case Poll(b) => PhaseStepsKeep(s, step);
    case ChunkLock(b) => PhaseStepsKeep(s, step);
    case ChunkScan(b, ids, limit) =>
      if b in s.bfs && s.bfs[b].phase.Chunk? && s.bfs[b].phase.work.None? { ScanKeeps(s, b, ids, limit); }
    case ChunkCommit(b) =>
      if b in s.bfs && s.bfs[b].phase.Chunk? && s.bfs[b].phase.work.Some? { ChunkCommitKeeps(s, b); }
    case Crash(b) => if b in s.bfs { CrashKeeps(s, b); }
    case Attach(c, b) => AttachKeeps(s, c, b);
    case Pull(c, seqnos, size) => if c in s.feeds { PullKeeps(s, c, seqnos, size); }
    case Ack(c) => if c in s.feeds && s.feeds[c].batch.Some? { AckKeeps(s, c); }
    case Rollback(c) => if c in s.feeds && s.feeds[c].batch.Some? { BatchEndKeeps(s, c); }
    case Expire(_) => BacklogKeeps(s, Next(s, step));
    case PurgeTask(_) => BacklogKeeps(s, Next(s, step));
    case Leave(u) => LeaveKeeps(s, u);
    case LeaveDone(u) => if u in s.leaving { LeaveDoneKeeps(s, u); }
    case LeaveAbort(u) => LeaveAbortKeeps(s, u);
  }

  lemma PhaseStepsKeep(s: World, step: Step)
    requires PurityOk(s) && (step.Capture? || step.Poll? || step.ChunkLock?)
    ensures PurityOk(Next(s, step))
  {
    PhaseShape(s, step);
    var s' := Next(s, step);
    if s' != s {
      assert s'.bfs[step.b].phase.Chunk? ==> s.lock.Free? && OfRegistered(s, s.bfs[step.b].gen);
      assert !s.bfs[step.b].phase.Chunk?;
      hide Next;
      BackfillerKeeps(s, s', step.b);
    }
  }

  /** Nothing moved but one backfiller outside its chunk, which may have locked the row for one. */
  predicate PhaseMove(s: World, s': World, b: nat) {
    s' == s ||
    (b in s.bfs && b in s'.bfs && !s.bfs[b].phase.Chunk? && s'.bfs[b].gen == s.bfs[b].gen
     && s' == s.(bfs := s.bfs[b := s'.bfs[b]], lock := s'.lock)
     && (if s'.bfs[b].phase.Chunk? then s'.lock == ByChunk(b) && s'.bfs[b].phase.work.None? else s'.lock == s.lock))
  }

  lemma PollMoves(s: World, b: nat)
    requires b in s.bfs && s.bfs[b].phase.Waiting?
    ensures PhaseMove(s, PollBarrier(s, b), b)
  {
  }

  lemma LockMoves(s: World, b: nat)
    requires b in s.bfs && s.bfs[b].phase.Scanning?
    ensures PhaseMove(s, LockChunk(s, b), b)
  {
  }

  lemma CaptureMoves(s: World, b: nat)
    requires b in s.bfs && s.bfs[b].phase.Registered?
    ensures PhaseMove(s, SetPhase(s, b, Waiting(s.txns.Keys)), b)
  {
  }

  lemma PhaseShape(s: World, step: Step)
    requires step.Capture? || step.Poll? || step.ChunkLock?
    ensures PhaseMove(s, Next(s, step), step.b)
  {
    assert PhaseMove(s, s, step.b);
    hide PhaseMove, SetPhase, PollBarrier, LockChunk;
    match step
    case Capture(b) => if b in s.bfs && s.bfs[b].phase.Registered? { CaptureMoves(s, b); }
    case Poll(b) => if b in s.bfs && s.bfs[b].phase.Waiting? { PollMoves(s, b); }
    case ChunkLock(b) => if b in s.bfs && s.bfs[b].phase.Scanning? { LockMoves(s, b); }
    case _ =>
  }

  lemma TxnStepKeepsGap(s: World, step: Step)
    requires PurityOk(s) && GapOk(s) && (step.Begin? || step.Look? || step.Write? || step.Commit? || step.Abort?)
    ensures GapOk(Next(s, step))
  {
    if step.Abort? { NoLessKeeps(s, Next(s, step)); }
    hide PurityOk, GapOk, WriteRow, CommitTxn;
    match step
    case Begin => BeginKeepsGap(s);
    case Look(t) => if t in s.txns { LookKeepsGap(s, t); }
    case Write(t, id, op) => if t in s.txns { WriteKeepsGap(s, t, id, op); }
    case Commit(t) => if t in s.txns && !IsBatch(s, t) { CommitKeepsGap(s, t); }
    case _ =>
  }

  lemma BackfillStepKeepsGap(s: World, step: Step)
    requires PurityOk(s) && GapOk(s)
    requires step.Register? || step.Capture? || step.Poll? || step.ChunkLock? || step.ChunkScan? || step.ChunkCommit? || step.Crash?
    ensures GapOk(Next(s, step))
  {
    hide PurityOk, GapOk, RegisterName, PollBarrier, LockChunk, ScanChunk, CommitChunk;
    match step
    case Register(b, filter, backfill) => RegisterKeepsGap(s, b, filter, backfill);
    case Capture(b) => if b in s.bfs { CaptureKeepsGap(s, b); }
    case Poll(b) => if b in s.bfs && s.bfs[b].phase.Waiting? { PollKeepsGap(s, b); }
    case ChunkLock(b) => if b in s.bfs && s.bfs[b].phase.Scanning? { LockKeepsGap(s, b); }
    case ChunkScan(b, ids, limit) =>
      if b in s.bfs && s.bfs[b].phase.Chunk? && s.bfs[b].phase.work.None? { ScanKeepsGap(s, b, ids, limit); }
    case ChunkCommit(b) =>
      if b in s.bfs && s.bfs[b].phase.Chunk? && s.bfs[b].phase.work.Some? && s.reg.Some? { ChunkKeepsGap(s, b); }
    case Crash(b) => if b in s.bfs { CrashKeepsGap(s, b); }
    case _ =>
  }

  lemma QuietStepKeepsGap(s: World, step: Step)
    requires GapOk(s) && (step.Attach? || step.Expire?)
    ensures GapOk(Next(s, step))
  {
    assert NoLess(s, Next(s, step));
    hide GapOk, Next;
    NoLessKeeps(s, Next(s, step));
  }

  lemma FeedStepKeepsGap(s: World, step: Step)
    requires PurityOk(s) && GapOk(s) && (step.Attach? || step.Pull? || step.Ack? || step.Rollback? || step.Expire? || step.PurgeTask?)
    ensures GapOk(Next(s, step))
  {
    hide PurityOk, GapOk, PullBatch, AckBatch;
    if step.Attach? || step.Expire? { QuietStepKeepsGap(s, step); }
    match step
    case Pull(c, seqnos, size) => if c in s.feeds { PullKeepsGap(s, c, seqnos, size); }
    case Ack(c) => if c in s.feeds && s.feeds[c].batch.Some? { BatchIsOpen(s, c); BatchEndKeepsGap(s, c, s.feeds[c].batch.value); }
    case Rollback(c) => if c in s.feeds && s.feeds[c].batch.Some? { BatchIsOpen(s, c); BatchEndKeepsGap(s, c, s.feeds[c].batch.value); }
    case PurgeTask(id) => PurgeKeepsGap(s, id);
    case _ =>
  }

  lemma LeaveStepKeepsGap(s: World, step: Step)
    requires PurityOk(s) && GapOk(s) && (step.Leave? || step.LeaveDone? || step.LeaveAbort?)
    ensures GapOk(Next(s, step))
  {
    if step.LeaveAbort? { NoLessKeeps(s, Next(s, step)); }
    hide PurityOk, GapOk, StartLeaving, FinishLeaving;
    match step
    case Leave(u) => LeaveKeepsGap(s, u);
    case LeaveDone(u) => if u in s.leaving { LeaveDoneKeepsGap(s, u); }
    case _ =>
  }

  lemma StepKeepsGap(s: World, step: Step)
    requires PurityOk(s) && GapOk(s)
    ensures GapOk(Next(s, step))
  {
    hide Next, PurityOk, GapOk;
    if step.Begin? || step.Look? || step.Write? || step.Commit? || step.Abort? {
      TxnStepKeepsGap(s, step);
    } else if step.Attach? || step.Pull? || step.Ack? || step.Rollback? || step.Expire? || step.PurgeTask? {
      FeedStepKeepsGap(s, step);
    } else if step.Leave? || step.LeaveDone? || step.LeaveAbort? {
      LeaveStepKeepsGap(s, step);
    } else {
      BackfillStepKeepsGap(s, step);
    }
  }

  lemma StepDelivers(s: World, step: Step)
    requires PurityOk(s) && DeliveryOk(s)
    ensures DeliveryOk(Next(s, step))
  {
    hide PurityOk, DeliveryOk, WriteRow, CommitTxn, ScanChunk, CommitChunk, PullBatch, AckBatch, FinishLeaving;
    match step
    case Write(t, id, op) => if t in s.txns { WriteDelivers(s, t, id, op); }
    case Commit(t) => if t in s.txns { CommitDelivers(s, t); }
    case ChunkScan(b, ids, limit) =>
      if b in s.bfs && s.bfs[b].phase.Chunk? && s.bfs[b].phase.work.None? { ScanDelivers(s, b, ids, limit); }
    case ChunkCommit(b) =>
      if b in s.bfs && s.bfs[b].phase.Chunk? && s.bfs[b].phase.work.Some? && s.reg.Some? { ChunkDelivers(s, b); }
    case Pull(c, seqnos, size) => if c in s.feeds { PullDelivers(s, c, seqnos, size); }
    case Ack(c) => if c in s.feeds && s.feeds[c].batch.Some? && s.feeds[c].batch.value in s.txns { AckDelivers(s, c, s.feeds[c].batch.value); }
    case Expire(seqnos) => ExpireDelivers(s, seqnos);
    case LeaveDone(u) => if u in s.leaving { LeaveDelivers(s, u); }
    case _ => QuietStepsDeliver(s, step);
  }

  predicate Quiet(step: Step) {
    !step.Write? && !step.Commit? && !step.ChunkScan? && !step.ChunkCommit? && !step.Pull? && !step.Ack? && !step.Expire? && !step.LeaveDone?
  }

  /** No event and no pull is added, and no chunk's work finished. */
  predicate Hushed(s: World, s': World) {
    && Quieter(s, s') && s'.snaps == s.snaps && s'.clock >= s.clock && s'.nextId == s.nextId
    && (forall t | t in s'.txns :: NoNewEvents(s, s'.txns[t], t))
    && (forall b | b in s'.bfs && s'.bfs[b].phase.Chunk? && s'.bfs[b].phase.work.Some? :: b in s.bfs && s'.bfs[b] == s.bfs[b])
  }

  predicate NoNewEvents(s: World, x: Txn, t: nat) {
    (x.events == {} && x.pulled == {}) || (t in s.txns && x.events == s.txns[t].events && x.pulled == s.txns[t].pulled)
  }

  lemma QuietShape(s: World, step: Step)
    requires Quiet(step)
    ensures Hushed(s, Next(s, step)) && (!step.Register? ==> Next(s, step).reg == s.reg)
  {
    if step.Register? { RegisterShape(s, step.b, step.filter, step.backfill); }
    hide Next, Hushed;
    if step.Register? { RegisterIsNext(s, step); }
    else if step.Begin? || step.Look? || step.Abort? || step.Rollback? { TxnShape(s, step); }
    else if step.PurgeTask? || step.Leave? || step.LeaveAbort? || step.Attach? { OtherShape(s, step); }
    else { BackfillerShape(s, step); }
  }

  lemma RegisterIsNext(s: World, step: Step)
    requires step.Register?
    ensures Next(s, step) == RegisterName(s, step.b, step.filter, step.backfill)
  {
    hide RegisterName;
  }

  lemma OtherShape(s: World, step: Step)
    requires step.PurgeTask? || step.Leave? || step.LeaveAbort? || step.Attach?
    ensures Hushed(s, Next(s, step)) && Next(s, step).reg == s.reg
  {
    hide Hushed;
    match step
    case PurgeTask(id) => PurgeShape(s, id);
    case Leave(u) => LeaveShape(s, u);
    case LeaveAbort(u) => LeaveAbortShape(s, u);
    case Attach(c, b) => AttachShape(s, c, b);
    case _ =>
  }

  lemma PurgeShape(s: World, id: Id)
    ensures Hushed(s, Next(s, PurgeTask(id))) && Next(s, PurgeTask(id)).reg == s.reg
  {
  }

  lemma LeaveShape(s: World, u: nat)
    ensures Hushed(s, Next(s, Leave(u))) && Next(s, Leave(u)).reg == s.reg
  {
    LeaveMoves(s, u);
    hide StartLeaving;
  }

  lemma LeaveAbortShape(s: World, u: nat)
    ensures Hushed(s, Next(s, LeaveAbort(u))) && Next(s, LeaveAbort(u)).reg == s.reg
  {
  }

  lemma AttachShape(s: World, c: nat, b: nat)
    ensures Hushed(s, Next(s, Attach(c, b))) && Next(s, Attach(c, b)).reg == s.reg
  {
  }

  lemma RegisterShape(s: World, b: nat, filter: Filter, backfill: Option<Option<Time>>)
    ensures Hushed(s, RegisterName(s, b, filter, backfill))
  {
  }

  lemma TxnShape(s: World, step: Step)
    requires step.Begin? || step.Look? || step.Abort? || step.Rollback?
    ensures Hushed(s, Next(s, step)) && Next(s, step).reg == s.reg
  {
    hide Hushed;
    match step
    case Begin => BeginShape(s);
    case Look(t) => LookShape(s, t);
    case Abort(t) => AbortShape(s, t);
    case Rollback(c) => RollbackShape(s, c);
    case _ =>
  }

  lemma BeginShape(s: World)
    ensures Hushed(s, Next(s, Begin)) && Next(s, Begin).reg == s.reg
  {
  }

  lemma LookShape(s: World, t: nat)
    ensures Hushed(s, Next(s, Look(t))) && Next(s, Look(t)).reg == s.reg
  {
  }

  lemma AbortShape(s: World, t: nat)
    ensures Hushed(s, Next(s, Abort(t))) && Next(s, Abort(t)).reg == s.reg
  {
  }

  lemma RollbackShape(s: World, c: nat)
    ensures Hushed(s, Next(s, Rollback(c))) && Next(s, Rollback(c)).reg == s.reg
  {
  }

  lemma PhaseChangeHushes(s: World, b: nat, p: Phase)
    requires b in s.bfs && (p.Chunk? ==> p.work.None?)
    ensures Hushed(s, SetPhase(s, b, p)) && SetPhase(s, b, p).reg == s.reg
  {
  }

  lemma BackfillerShape(s: World, step: Step)
    requires step.Capture? || step.Poll? || step.ChunkLock? || step.Crash?
    ensures Hushed(s, Next(s, step)) && Next(s, step).reg == s.reg
  {
    match step
    case Capture(b) => if b in s.bfs { PhaseChangeHushes(s, b, Waiting(s.txns.Keys)); }
    case Poll(b) => if b in s.bfs && s.bfs[b].phase.Waiting? { PollHushes(s, b); }
    case ChunkLock(b) => if b in s.bfs { LockHushes(s, b); }
    case Crash(b) => if b in s.bfs { PhaseChangeHushes(s, b, Stopped); }
    case _ =>
  }

  lemma PollHushes(s: World, b: nat)
    requires b in s.bfs && s.bfs[b].phase.Waiting?
    ensures Hushed(s, PollBarrier(s, b)) && PollBarrier(s, b).reg == s.reg
  {
    PhaseChangeHushes(s, b, Scanning);
    PhaseChangeHushes(s, b, Stopped);
  }

  lemma LockHushes(s: World, b: nat)
    requires b in s.bfs
    ensures Hushed(s, LockChunk(s, b)) && LockChunk(s, b).reg == s.reg
  {
    PhaseChangeHushes(s, b, Stopped);
    PhaseChangeHushes(s, b, Finished);
    PhaseChangeHushes(s, b, Chunk(None));
  }

  lemma QuietStepsDeliver(s: World, step: Step)
    requires PurityOk(s) && DeliveryOk(s) && Quiet(step)
    ensures DeliveryOk(Next(s, step))
  {
    hide Next, PurityOk, DeliveryOk;
    QuietShape(s, step);
    HushedPlaces(s, Next(s, step));
    hide NoNewEvents, FewerPlaces;
    QuieterKeeps(s, Next(s, step));
  }

  lemma HushedPlaces(s: World, s': World)
    requires Hushed(s, s')
    ensures FewerPlaces(s, s')
  {
  }

  lemma StepKeepsSnaps(s: World, step: Step)
    requires PurityOk(s) && GapOk(s) && SnapsOk(s)
    ensures SnapsOk(Next(s, step))
  {
    if step.Register? {
      RegisterKeepsSnaps(s, step.b, step.filter, step.backfill);
    } else if step.ChunkScan? || step.ChunkCommit? {
      ChunkStepsKeepSnaps(s, step);
    } else if Quiet(step) {
      QuietShape(s, step);
      hide Next, PurityOk, GapOk, SnapsOk;
      SnapsStay(s, Next(s, step));
    } else {
      LoudShape(s, step);
      hide Next, PurityOk, GapOk, SnapsOk;
      SnapsStay(s, Next(s, step));
    }
  }

  lemma ChunkStepsKeepSnaps(s: World, step: Step)
    requires PurityOk(s) && GapOk(s) && SnapsOk(s) && (step.ChunkScan? || step.ChunkCommit?)
    ensures SnapsOk(Next(s, step))
  {
    hide PurityOk, GapOk, SnapsOk, ScanChunk, CommitChunk;
    if step.b in s.bfs && s.bfs[step.b].phase.Chunk? {
      if step.ChunkScan? && s.bfs[step.b].phase.work.None? { ScanKeepsSnaps(s, step.b, step.ids, step.limit); }
      if step.ChunkCommit? && s.bfs[step.b].phase.work.Some? && s.reg.Some? { ChunkKeepsSnaps(s, step.b); }
    }
  }

  predicate SnapsUntouched(s: World, s': World) {
    && s'.snaps == s.snaps && s'.clock >= s.clock && s'.nextId >= s.nextId && s'.bfs == s.bfs
    && (s'.reg == s.reg || s'.reg.None?)
  }

  lemma WriteShape(s: World, t: nat, id: Id, op: Op)
    requires t in s.txns
    ensures SnapsUntouched(s, WriteRow(s, t, id, op))
  {
    hide Apply, Publishes;
  }

  lemma DeliveryShape(s: World, step: Step)
    requires step.Pull? || step.Ack? || step.Expire? || step.LeaveDone?
    ensures SnapsUntouched(s, Next(s, step))
  {
    hide IsPull;
  }

  lemma LoudShape(s: World, step: Step)
    requires !Quiet(step) && !step.ChunkScan? && !step.ChunkCommit?
    ensures SnapsUntouched(s, Next(s, step))
  {
    hide WriteRow;
    if step.Write? {
      if step.t in s.txns { WriteShape(s, step.t, step.id, step.op); }
    } else if !step.Commit? {
      hide Next, SnapsUntouched;
      DeliveryShape(s, step);
    }
  }

  lemma {:induction false} RunsKeepFeed(steps: seq<Step>)
    ensures FeedInv(Exec(steps))
    decreases |steps|
  {
    hide Next, PurityOk, DeliveryOk, GapOk, SnapsOk;
    if steps == [] {
      StartIsFine();
    } else {
      var s := Exec(steps[..|steps| - 1]);
      var step := steps[|steps| - 1];
      RunsKeepFeed(steps[..|steps| - 1]);
      StepKeepsPurity(s, step);
      StepDelivers(s, step);
      StepKeepsGap(s, step);
      StepKeepsSnaps(s, step);
    }
  }

  lemma StartIsFine()
    ensures FeedInv(Start)
  {
  }

  // ------------------------------------------------------------------------------------- theorems

  /** No gap. For a registration that asked for a backfill and kept its filters, once its marker has
      cleared, every retained task it asks for has had its current state published under its
      generation; while the marker is pending, such a task is at worst still ahead of a cursor. */
  lemma NoGap(steps: seq<Step>, id: Id)
    requires var s := Exec(steps); Promises(s) && id in s.tasks && Required(s.reg.value, s.tasks[id])
    ensures
      var s := Exec(steps);
      && (s.reg.value.marker.None? ==> Published(s, s.reg.value.gen, id, s.tasks[id]))
      && (s.reg.value.marker.Some? ==> Published(s, s.reg.value.gen, id, s.tasks[id]) || Beyond(s.reg.value.marker, id, s.tasks[id]))
  {
    RunsKeepFeed(steps);
  }

  /** Generation purity. Stored and buffered events, open chunks and open batches all belong to the
      registration of the moment; what a feed holds or has acknowledged is of its own generation. */
  lemma GenerationPurity(steps: seq<Step>, e: Event, t: nat, b: nat, c: nat)
    ensures
      var s := Exec(steps);
      && (e in s.backlog ==> OfGen(s, e))
      && (t in s.txns && e in s.txns[t].events ==> OfGen(s, e))
      && (b in s.bfs && s.bfs[b].phase.Chunk? ==> s.reg.Some? && s.reg.value.gen == s.bfs[b].gen)
      && (c in s.feeds && s.feeds[c].batch == Some(t) ==>
            t in s.txns && s.reg.Some? && s.reg.value.gen == s.feeds[c].gen
            && (e in PulledEvents(s, t) ==> e.gen == s.feeds[c].gen))
      && (forall g | (g, e) in s.acked :: g == e.gen)
  {
    RunsKeepFeed(steps);
    var s := Exec(steps);
    assert t in s.txns ==> TxnOk(s, t);
    assert c in s.feeds ==> FeedOk(s, c);
    assert forall g | (g, e) in s.acked :: (g, e).0 == (g, e).1.gen;
  }

  /** Delivery conservation. Every committed event is in exactly one place: waiting, acknowledged,
      expired, dropped with its registration, or strayed; a sequence number names one event; and no
      two open batches hold the same one. */
  lemma DeliveryConservation(steps: seq<Step>, e: Event, f: Event, c: nat, d: nat)
    ensures
      var s := Exec(steps);
      && Parts(s, e) == (if e in s.published then 1 else 0)
      && (e in s.published && f in s.published && e.seqno == f.seqno ==> e == f)
      && (c in s.feeds && d in s.feeds && c != d && s.feeds[c].batch.Some? && s.feeds[d].batch.Some? ==>
            s.feeds[c].batch.value in s.txns && s.feeds[d].batch.value in s.txns
            && s.txns[s.feeds[c].batch.value].pulled !! s.txns[s.feeds[d].batch.value].pulled)
  {
    RunsKeepFeed(steps);
    var s := Exec(steps);
    assert Parts(s, e) == One(e in s.published);
    assert e in s.published && f in s.published ==> At(s, Committed, e) && At(s, Committed, f);
    if c in s.feeds { assert FeedOk(s, c); }
    if d in s.feeds { assert FeedOk(s, d); }
  }

  function Seqnos(events: set<Event>): set<nat> { set e | e in events :: e.seqno }

  /** An acknowledgement, in any reachable state, commits the batch's own reactions and removes exactly
      the events the batch was given: none of them has expired or been taken meanwhile, and nothing
      else leaves. */
  lemma AckTakesExactlyTheBatch(steps: seq<Step>, c: nat)
    requires c in Exec(steps).feeds && Exec(steps).feeds[c].batch.Some?
    ensures
      var s := Exec(steps);
      var s' := Next(s, Ack(c));
      var t := s.feeds[c].batch.value;
      && t in s.txns && t !in s'.txns && s'.feeds[c].batch.None?
      && Seqnos(s.backlog - s'.backlog) == s.txns[t].pulled
      && s'.backlog - s.backlog <= s.txns[t].events
      && AckedEvents(s') - AckedEvents(s) == s.backlog - s'.backlog
      && s'.tasks == s.tasks + s.txns[t].writes
  {
    RunsKeepFeed(steps);
    var s := Exec(steps);
    var s' := Next(s, Ack(c));
    BatchIsOpen(s, c);
    var t := s.feeds[c].batch.value;
    var mine := PulledEvents(s, t);
    AckIsExact(s, c, t);
  }

  lemma AckIsExact(s: World, c: nat, t: nat)
    requires FeedInv(s) && c in s.feeds && s.feeds[c].batch == Some(t) && t in s.txns
    ensures
      var s' := AckBatch(s, c, t);
      && s.backlog - s'.backlog == PulledEvents(s, t)
      && Seqnos(PulledEvents(s, t)) == s.txns[t].pulled
      && AckedEvents(s') - AckedEvents(s) == PulledEvents(s, t)
  {
    var s' := AckBatch(s, c, t);
    var mine := PulledEvents(s, t);
    forall e | e in mine ensures e !in s.txns[t].events && e !in AckedEvents(s) {
      assert Parts(s, e) == One(e in s.published);
      assert At(s, Committed, e);
      assert e in s.txns[t].events ==> At(s, InTxn(t), e);
    }
    forall n | n in s.txns[t].pulled ensures n in Seqnos(mine) {
      var e :| e in s.backlog && e.seqno == n;
      assert e in mine;
    }
    forall e ensures e in AckedEvents(s') <==> e in AckedEvents(s) || e in mine {
      if e in mine { assert (s.feeds[c].gen, e) in s'.acked; }
    }
  }

  /** The backfill runs once: over all resumers, no generation projects a state's task twice, and the
      ids of a state only rise. */
  lemma BackfillRunsOnce(steps: seq<Step>, i: nat, j: nat)
    requires var s := Exec(steps); i < j < |s.snaps| && s.snaps[i].gen == s.snaps[j].gen && s.snaps[i].face.state == s.snaps[j].face.state
    ensures Exec(steps).snaps[i].id < Exec(steps).snaps[j].id
  {
    RunsKeepFeed(steps);
    var s := Exec(steps);
    assert Before(s.snaps[i], s.snaps[j]);
  }

  /** ... and ends: with task ids bounded, each chunk committed in any reachable state leaves strictly
      less to do. */
  lemma BackfillEnds(steps: seq<Step>, b: nat, bound: Id)
    requires var s := Exec(steps); b in s.bfs && s.bfs[b].phase.Chunk? && s.bfs[b].phase.work.Some? && s.nextId <= bound + 1
    ensures
      var s := Exec(steps);
      var s' := Exec(steps + [ChunkCommit(b)]);
      && s.reg.Some? && s'.reg.Some?
      && Remaining(s'.reg.value.marker, bound) < Remaining(s.reg.value.marker, bound)
  {
    RunsKeepFeed(steps);
    var s := Exec(steps);
    ChunksMakeProgress(s, b, bound);
    assert (steps + [ChunkCommit(b)])[..|steps|] == steps;
  }
}
