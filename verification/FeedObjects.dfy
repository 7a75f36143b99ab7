/** The feed's mutable objects: the consumer with its batch, and the backfill run with its chunk
    loop. Each method is one step of the feed, on whatever the others have made of it by then. */
module FeedObjects {
  import opened Rows
  import opened Feed
  import opened FeedPurity
  import opened FeedDelivery
  import opened FeedRuns

  function Generation(s: World): Option<nat> {
    if s.reg.None? then None else Some(s.reg.value.gen)
  }

  // -------------------------------------------------------------------- what the others leave alone

  predicate ByClient(step: Step, c: nat) {
    (step.Pull? && step.c == c) || (step.Ack? && step.c == c) || (step.Rollback? && step.c == c)
  }

  predicate ByRun(step: Step, b: nat) {
    || (step.Capture? && step.b == b) || (step.Poll? && step.b == b) || (step.ChunkLock? && step.b == b)
    || (step.ChunkScan? && step.b == b) || (step.ChunkCommit? && step.b == b) || (step.Crash? && step.b == b)
  }

  lemma OthersKeepFeed(s: World, step: Step, c: nat)
    requires c in s.feeds && !ByClient(step, c)
    ensures c in Next(s, step).feeds && Next(s, step).feeds[c] == s.feeds[c]
  {
    hide Apply, Publishes, IsPull, Scans;
    if step.Leave? { LeaveMoves(s, step.u); hide StartLeaving; }
  }

  predicate BatchStays(s: World, s': World, t: nat) {
    t in s.txns && t in s'.txns && s'.txns[t].pulled == s.txns[t].pulled
  }

  lemma TxnStepsKeepBatch(s: World, step: Step, t: nat)
    requires t in s.txns && t < s.clock && IsBatch(s, t)
    requires step.Begin? || step.Look? || step.Write? || step.Commit? || step.Abort?
    ensures BatchStays(s, Next(s, step), t)
  {
    hide Apply, Publishes;
  }

  lemma PullKeepsBatch(s: World, step: Step, t: nat)
    requires t in s.txns && t < s.clock && step.Pull?
    ensures BatchStays(s, Next(s, step), t)
  {
    hide IsPull;
  }

  lemma BatchEndKeepsOther(s: World, step: Step, t: nat)
    requires t in s.txns && (step.Ack? || step.Rollback?) && (step.c in s.feeds ==> s.feeds[step.c].batch != Some(t))
    ensures BatchStays(s, Next(s, step), t)
  {
  }

  lemma FeedStepsKeepBatch(s: World, step: Step, c: nat)
    requires FeedInv(s) && c in s.feeds && s.feeds[c].batch.Some? && !ByClient(step, c)
    requires step.Pull? || step.Ack? || step.Rollback?
    ensures BatchStays(s, Next(s, step), s.feeds[c].batch.value)
  {
    var t := s.feeds[c].batch.value;
    assert FeedOk(s, c) && t < s.clock;
    hide Next, BatchStays;
    if step.Pull? {
      PullKeepsBatch(s, step, t);
    } else {
      if step.c in s.feeds { assert FeedOk(s, step.c) && s.feeds[step.c].batch != Some(t); }
      BatchEndKeepsOther(s, step, t);
    }
  }

  lemma RestKeepsTxns(s: World, step: Step)
    requires !step.Begin? && !step.Look? && !step.Write? && !step.Commit? && !step.Abort? && !step.Pull? && !step.Ack? && !step.Rollback?
    ensures Next(s, step).txns == s.txns
  {
    hide Scans;
    if step.Leave? { LeaveMoves(s, step.u); hide StartLeaving; }
  }

  /** Nobody else ends a consumer's batch or changes what it was given. */
  lemma OthersKeepBatch(s: World, step: Step, c: nat)
    requires FeedInv(s) && c in s.feeds && s.feeds[c].batch.Some? && !ByClient(step, c)
    ensures BatchStays(s, Next(s, step), s.feeds[c].batch.value)
  {
    var t := s.feeds[c].batch.value;
    assert FeedOk(s, c) && IsBatch(s, t) && t < s.clock;
    hide Next, FeedInv, IsBatch;
    if step.Begin? || step.Look? || step.Write? || step.Commit? || step.Abort? {
      TxnStepsKeepBatch(s, step, t);
    } else if step.Pull? || step.Ack? || step.Rollback? {
      FeedStepsKeepBatch(s, step, c);
    } else {
      RestKeepsTxns(s, step);
    }
  }

  lemma OthersKeepRun(s: World, step: Step, b: nat)
    requires b in s.bfs && !ByRun(step, b)
    ensures b in Next(s, step).bfs && Next(s, step).bfs[b] == s.bfs[b]
  {
    hide Apply, Publishes, IsPull, Scans;
    if step.Leave? { LeaveMoves(s, step.u); hide StartLeaving; }
  }

  lemma RowStaysPut(s: World, step: Step)
    requires !step.Register? && !step.ChunkCommit? && !step.LeaveDone?
    ensures Next(s, step).reg == s.reg
  {
    hide Apply, Publishes, IsPull, Scans;
    if step.Leave? { LeaveMoves(s, step.u); hide StartLeaving; }
  }

  /** While a run holds the row for its chunk, nobody else touches the registration. */
  lemma OthersKeepRow(s: World, step: Step, b: nat)
    requires FeedInv(s) && b in s.bfs && s.bfs[b].phase.Chunk? && !ByRun(step, b)
    ensures Next(s, step).reg == s.reg
  {
    assert s.lock == ByChunk(b);
    assert forall d | d in s.bfs && d != b :: !s.bfs[d].phase.Chunk?;
    assert forall u | u in s.leaving :: !s.leaving[u].Holding?;
    hide FeedInv;
    if !step.Register? && !step.ChunkCommit? && !step.LeaveDone? {
      hide Next;
      RowStaysPut(s, step);
    }
  }

  // -------------------------------------------------------------------------------- Feed and Batch

  datatype Delivery = StopIteration | Nothing | Delivered(seqnos: seq<nat>)

  function Numbers(rows: seq<nat>): set<nat> { set n | n in rows }

  class FeedClient {
    const c: nat
    const gen: nat
    const size: nat
    var closed: bool
    var batch: Option<nat>

    constructor (c: nat, gen: nat, size: nat, closed: bool)
      ensures this.c == c && this.gen == gen && this.size == size && this.closed == closed && batch == None
    {
      this.c, this.gen, this.size, this.closed, batch := c, gen, size, closed, None;
    }

    ghost predicate Valid(s: World)
      reads this
    {
      && c in s.feeds && s.feeds[c] == Consumer(gen, closed, batch)
      && (batch.Some? ==> batch.value in s.txns)
    }

    lemma OneStaysValid(s: World, step: Step)
      requires FeedInv(s) && Valid(s) && !ByClient(step, c)
      ensures Valid(Next(s, step)) && (batch.Some? ==> BatchStays(s, Next(s, step), batch.value))
    {
      hide Next, FeedInv;
      OthersKeepFeed(s, step, c);
      if batch.Some? { OthersKeepBatch(s, step, c); }
    }

    /** What this object knows of the world stays true whatever everybody else does. */
    lemma StaysValid(steps: seq<Step>, more: seq<Step>)
      requires Valid(Exec(steps)) && forall k | 0 <= k < |more| :: !ByClient(more[k], c)
      ensures Valid(Exec(steps + more))
      ensures batch.Some? ==> BatchStays(Exec(steps), Exec(steps + more), batch.value)
      decreases |more|
    {
      hide Exec, Next, FeedInv;
      if more != [] {
        var before, step := more[..|more| - 1], more[|more| - 1];
        StaysValid(steps, before);
        RunsKeepFeed(steps + before);
        OneStaysValid(Exec(steps + before), step);
        OneMore(steps + before, step);
        assert steps + more == steps + before + [step];
      } else {
        assert steps + more == steps;
      }
    }

    /** Ends the open batch, if any: its rows are free again and its acknowledgement is refused. */
    method RollBack(ghost s: World) returns (ghost after: World)
      requires Valid(s)
      modifies this`batch
      ensures after == Next(s, Rollback(c)) && Valid(after) && batch == None
    {
      after := Next(s, Rollback(c));
      batch := None;
    }

    /** One turn of `__anext__`: `registered` and `rows` are what its two SELECTs return, after the
        registration's row lock is granted, in transaction `txn`. */
    method Anext(ghost s: World, registered: Option<nat>, rows: seq<nat>, txn: nat)
      returns (ghost after: World, r: Delivery)
      requires Valid(s) && txn == s.clock && registered == Generation(s) && !s.lock.ByLeave?
      requires IsPull(Next(s, Rollback(c)), Numbers(rows), size)
      modifies this
      ensures Valid(after)
      ensures old(closed) ==> r.StopIteration? && after == s && closed
      ensures !old(closed) ==>
        && after == Next(Next(s, Rollback(c)), Pull(c, Numbers(rows), size))
        && (r.StopIteration? <==> Generation(s) != Some(gen))
        && (r.Delivered? ==> r.seqnos == rows && rows != [] && batch.Some?)
        && (!r.Delivered? ==> batch == None)
        && (closed <==> r.StopIteration?)
    {
      if closed { return s, StopIteration; }
      ghost var mid := RollBack(s);
      after := Next(mid, Pull(c, Numbers(rows), size));
      if registered != Some(gen) {
        closed := true;
        return after, StopIteration;
      }
      if rows == [] {
        assert Numbers(rows) == {};
        return after, Nothing;
      }
      assert rows[0] in Numbers(rows);
      batch := Some(txn);
      return after, Delivered(rows);
    }

    /** Deletes exactly this delivery and commits; without an open batch it is refused. */
    method AckBatch(ghost s: World) returns (ghost after: World, active: bool)
      requires Valid(s)
      modifies this`batch
      ensures after == Next(s, Ack(c)) && Valid(after) && batch == None
      ensures active == old(batch).Some? && (!active ==> after == s)
    {
      after := Next(s, Ack(c));
      active := batch.Some?;
      batch := None;
    }

    /** A delivery and its acknowledgement with anything at all in between: what the acknowledgement
        removes from the feed is exactly what was delivered. */
    method DeliverThenAck(ghost steps: seq<Step>, registered: Option<nat>, rows: seq<nat>, txn: nat, ghost between: seq<Step>)
      returns (ghost run: seq<Step>, r: Delivery, acked: bool)
      requires var s := Exec(steps); Valid(s) && registered == Generation(s) && !s.lock.ByLeave? && txn == s.clock
      requires IsPull(Next(Exec(steps), Rollback(c)), Numbers(rows), size)
      requires !closed && forall k | 0 <= k < |between| :: !ByClient(between[k], c)
      modifies this
      ensures run == steps + [Rollback(c), Pull(c, Numbers(rows), size)] + between + [Ack(c)]
      ensures Valid(Exec(run)) && acked == r.Delivered?
      ensures acked ==>
        Seqnos(Exec(run[..|run| - 1]).backlog - Exec(run).backlog) == Numbers(rows) && r == Delivered(rows)
    {
      ghost var begun := steps + [Rollback(c), Pull(c, Numbers(rows), size)];
      ghost var s1;
      s1, r := Anext(Exec(steps), registered, rows, txn);
      TwoMore(steps, Rollback(c), Pull(c, Numbers(rows), size));
      assert s1 == Exec(begun);
      if batch.Some? { PullGives(Exec(steps + [Rollback(c)]), c, Numbers(rows), size); }
      StaysValid(begun, between);
      ghost var t := batch;
      ghost var s2;
      s2, acked := AckBatch(Exec(begun + between));
      OneMore(begun + between, Ack(c));
      run := begun + between + [Ack(c)];
      assert run[..|run| - 1] == begun + between;
      if acked { AckTakesExactlyTheBatch(begun + between, c); }
    }
  }

  lemma OneMore(steps: seq<Step>, step: Step)
    ensures Exec(steps + [step]) == Next(Exec(steps), step)
  {
    assert (steps + [step])[..|steps|] == steps;
  }

  lemma TwoMore(steps: seq<Step>, a: Step, b: Step)
    ensures Exec(steps + [a]) == Next(Exec(steps), a)
    ensures Exec(steps + [a, b]) == Next(Next(Exec(steps), a), b)
  {
    OneMore(steps, a);
    OneMore(steps + [a], b);
    assert steps + [a, b] == steps + [a] + [b];
  }

  lemma PullGives(s: World, c: nat, seqnos: set<nat>, size: nat)
    requires c in s.feeds && s.feeds[c].batch.None? && Next(s, Pull(c, seqnos, size)).feeds[c].batch.Some?
    ensures
      var s' := Next(s, Pull(c, seqnos, size));
      s'.feeds[c].batch.value in s'.txns && s'.txns[s'.feeds[c].batch.value].pulled == seqnos
  {
    hide IsPull;
  }

  // -------------------------------------------------------------------------------- the backfill

  datatype Stage = AtBarrier | AtChunk | Locked | Scanned | Over(done: bool)

  /** `_wait_for_transactions` and the loop of `_backfill` around `backfill_chunk`. `pending` is the
      marker's dictionary as this run last read or edited it; `rows` and `chunks` are its counters. */
  class BackfillRun {
    const b: nat
    const gen: nat
    const limit: nat
    var captured: set<nat>
    var stage: Stage
    var since: Option<Time>
    var pending: map<State, Id>
    var count: nat
    var rows: nat
    var chunks: nat

    constructor (b: nat, gen: nat, limit: nat, open: set<nat>)
      ensures this.b == b && this.gen == gen && this.limit == limit && captured == open && stage == AtBarrier
      ensures rows == 0 && chunks == 0
    {
      this.b, this.gen, this.limit, captured, stage := b, gen, limit, open, AtBarrier;
      since, pending, count, rows, chunks := None, map[], 0, 0, 0;
    }

    ghost predicate Valid(s: World)
      reads this
    {
      && limit >= 1 && b in s.bfs && s.bfs[b].gen == gen
      && match stage
         case AtBarrier => s.bfs[b].phase == Waiting(captured)
         case AtChunk => s.bfs[b].phase == Scanning
         case Locked => s.bfs[b].phase == Chunk(None) && s.reg.Some? && s.reg.value.marker == Some(Marker(since, pending))
         case Scanned =>
           && s.reg.Some? && s.bfs[b].phase.Chunk? && s.bfs[b].phase.work.Some?
           && s.bfs[b].phase.work.value.marker == Left()
           && |s.bfs[b].phase.work.value.events| == count
         case Over(done) => s.bfs[b].phase == if done then Finished else Stopped
    }

    function Left(): Option<Marker>
      reads this
    {
      if pending == map[] then None else Some(Marker(since, pending))
    }

    lemma OneStaysValid(s: World, step: Step)
      requires FeedInv(s) && Valid(s) && !ByRun(step, b)
      ensures Valid(Next(s, step))
    {
      OthersKeepRun(s, step, b);
      if stage.Locked? || stage.Scanned? { OthersKeepRow(s, step, b); }
      hide Next, FeedInv;
    }

    /** What this run knows of the world stays true whatever everybody else does: outside a chunk its own
        phase, inside one also the marker it has read and edited. */
    lemma StaysValid(steps: seq<Step>, more: seq<Step>)
      requires Valid(Exec(steps)) && forall k | 0 <= k < |more| :: !ByRun(more[k], b)
      ensures Valid(Exec(steps + more))
      decreases |more|
    {
      hide Exec, Next, FeedInv;
      if more != [] {
        var before, step := more[..|more| - 1], more[|more| - 1];
        StaysValid(steps, before);
        RunsKeepFeed(steps + before);
        OneStaysValid(Exec(steps + before), step);
        OneMore(steps + before, step);
        assert steps + more == steps + before + [step];
      } else {
        assert steps + more == steps;
      }
    }

    lemma LockedRow(s: World)
      requires Valid(s) && stage.Locked?
      ensures s.reg.Some? && s.reg.value.marker == Some(Marker(since, pending))
    {
    }

    /** One poll of the barrier: only the transactions captured at the start are waited for. */
    method PollBlockers(ghost s: World, open: set<nat>, registered: Option<nat>) returns (ghost after: World)
      requires Valid(s) && stage.AtBarrier? && open == s.txns.Keys && registered == Generation(s)
      modifies this`stage
      ensures after == Next(s, Poll(b)) && Valid(after)
      ensures stage.AtChunk? <==> captured !! open
    {
      after := Next(s, Poll(b));
      var blockers := captured * open;
      assert blockers == {} <==> captured !! open by { assert forall t :: t in blockers <==> t in captured && t in open; }
      if blockers == {} {
        stage := AtChunk;
      } else if registered != Some(gen) {
        stage := Over(false);
      }
    }

    /** The chunk's SELECT ... FOR NO KEY UPDATE. */
    method LockRow(ghost s: World, row: Option<Reg>) returns (ghost after: World)
      requires Valid(s) && stage.AtChunk? && s.lock.Free? && row == s.reg
      modifies this
      ensures after == Next(s, ChunkLock(b)) && Valid(after)
      ensures rows == old(rows) && chunks == old(chunks) + if stage == Over(true) then 1 else 0
      ensures stage == if row.None? || row.value.gen != gen then Over(false) else if row.value.marker.None? then Over(true) else Locked
      ensures stage.Locked? ==> row.value.marker == Some(Marker(since, pending))
    {
      after := Next(s, ChunkLock(b));
      if row == None || row.value.gen != gen {
        stage := Over(false);
      } else if row.value.marker == None {
        chunks := chunks + 1;
        stage := Over(true);
      } else {
        since, pending := row.value.marker.value.since, row.value.marker.value.pending;
        stage := Locked;
      }
    }

    /** The INSERT ... SELECT and the edit of the dictionary in place: a short chunk ends its state, a
        full one advances the state's cursor. */
    method ScanRows(ghost s: World, ids: seq<Id>) returns (ghost after: World)
      requires Valid(s) && stage.Locked? && s.reg.Some? && s.reg.value.marker == Some(Marker(since, pending))
      requires Scans(s, s.reg.value, Marker(since, pending), ids, limit)
      modifies this`stage, this`pending, this`count
      ensures after == Next(s, ChunkScan(b, ids, limit)) && Valid(after)
      ensures stage.Scanned? && count == |ids| && pending.Keys <= old(pending.Keys)
      ensures forall st | st in pending :: pending[st] >= old(pending)[st]
    {
      after := Next(s, ChunkScan(b, ids, limit));
      ghost var work := Project(s, s.reg.value, Marker(since, pending), ids, limit);
      assert after.bfs[b].phase == Chunk(Some(work)) && after.reg == s.reg && after.bfs[b].gen == gen;
      assert |work.events| == |ids|;
      stage := Scanned;
      count := |ids|;
      if pending != map[] {
        var state := FirstPending(pending);
        assert |ids| == limit ==> Eligible(s, s.reg.value, state, pending[state], since, ids[|ids| - 1]);
        if |ids| < limit {
          pending := pending - {state};
        } else {
          pending := pending[state := ids[|ids| - 1]];
        }
      }
    }

    /** The UPDATE and the commit; the run is over when nothing is left pending. */
    method CommitRows(ghost s: World) returns (ghost after: World)
      requires Valid(s) && stage.Scanned?
      modifies this`stage, this`rows, this`chunks
      ensures after == Next(s, ChunkCommit(b)) && Valid(after)
      ensures rows == old(rows) + count && chunks == old(chunks) + 1
      ensures |after.snaps| == |s.snaps| + count
      ensures stage == if pending == map[] then Over(true) else AtChunk
    {
      after := Next(s, ChunkCommit(b));
      rows, chunks := rows + count, chunks + 1;
      stage := if pending == map[] then Over(true) else AtChunk;
    }

    /** A whole chunk with anything at all in between: it inserts the rows it scanned, once, and counts
        them, or stops having inserted nothing. */
    method WholeChunk(ghost steps: seq<Step>, row: Option<Reg>, ghost first: seq<Step>, ids: seq<Id>, ghost second: seq<Step>)
      returns (ghost run: seq<Step>)
      requires Valid(Exec(steps)) && stage.AtChunk? && Exec(steps).lock.Free? && row == Exec(steps).reg
      requires (forall k | 0 <= k < |first| :: !ByRun(first[k], b)) && (forall k | 0 <= k < |second| :: !ByRun(second[k], b))
      requires row.Some? && row.value.marker.Some? ==>
        var s := Exec(steps + [ChunkLock(b)] + first);
        s.reg.Some? ==> Scans(s, s.reg.value, row.value.marker.value, ids, limit)
      modifies this
      ensures Valid(Exec(run))
      ensures row.None? || row.value.gen != gen || row.value.marker.None? ==>
        run == steps + [ChunkLock(b)] && rows == old(rows)
      ensures row.Some? && row.value.gen == gen && row.value.marker.Some? ==>
        && run == steps + [ChunkLock(b)] + first + [ChunkScan(b, ids, limit)] + second + [ChunkCommit(b)]
        && rows == old(rows) + |ids| && chunks == old(chunks) + 1
        && |Exec(run).snaps| == |Exec(run[..|run| - 1]).snaps| + |ids|
    {
      hide Exec, Next, Scans, FeedInv;
      ghost var s1 := LockRow(Exec(steps), row);
      OneMore(steps, ChunkLock(b));
      run := steps + [ChunkLock(b)];
      if stage.Over? { return; }
      StaysValid(run, first);
      run := run + first;
      LockedRow(Exec(run));
      ghost var s2 := ScanRows(Exec(run), ids);
      OneMore(run, ChunkScan(b, ids, limit));
      run := run + [ChunkScan(b, ids, limit)];
      StaysValid(run, second);
      run := run + second;
      ghost var s3 := CommitRows(Exec(run));
      OneMore(run, ChunkCommit(b));
      assert (run + [ChunkCommit(b)])[..|run|] == run;
      run := run + [ChunkCommit(b)];
    }
  }
}
