/** Locks and generations: whatever is stored, buffered, delivered or acknowledged belongs to the
    registration that is there, however often the name is removed and created again. */
module FeedPurity {
  import opened Rows
  import opened Feed

  ghost predicate ClockOk(s: World) {
    && (forall t | t in s.txns :: t < s.clock)
    && (s.reg.Some? ==> s.reg.value.gen < s.clock)
    && (forall b | b in s.bfs :: s.bfs[b].gen < s.clock)
    && (forall c | c in s.feeds :: s.feeds[c].gen < s.clock)
  }

  /** The subscription row's lock is held by exactly the chunk or the unsubscribe it names. */
  ghost predicate LockOk(s: World) {
    && (!s.lock.Free? ==> s.reg.Some?)
    && (s.lock.ByChunk? ==> s.lock.b in s.bfs && s.bfs[s.lock.b].phase.Chunk? && s.bfs[s.lock.b].gen == s.reg.value.gen)
    && (forall b | b in s.bfs && s.bfs[b].phase.Chunk? :: s.lock == ByChunk(b))
    && (s.lock.ByLeave? ==> s.lock.u in s.leaving && s.leaving[s.lock.u].Holding?)
    && (forall u | u in s.leaving && s.leaving[u].Holding? :: s.lock == ByLeave(u))
    && (s.lock.ByChunk? ==> s.reg.value.marker.Some?)
  }

  predicate OfGen(s: World, e: Event) {
    s.reg.Some? && e.gen == s.reg.value.gen
  }

  ghost predicate TxnOk(s: World, t: nat)
    requires t in s.txns
  {
    var x := s.txns[t];
    && (x.shares ==> s.reg.Some? && !s.lock.ByLeave?)
    && (!x.shares ==> x.events == {} && x.pulled == {})
    && (forall e | e in x.events :: OfGen(s, e) && !e.snapshot)
    && (x.pulled != {} ==> IsBatch(s, t))
  }

  ghost predicate FeedOk(s: World, c: nat)
    requires c in s.feeds
  {
    var f := s.feeds[c];
    f.batch.Some? ==>
      && f.batch.value in s.txns && s.txns[f.batch.value].shares
      && s.reg.Some? && s.reg.value.gen == f.gen
      && (forall d | d in s.feeds && d != c :: s.feeds[d].batch != f.batch)
  }

  ghost predicate WorkOk(s: World, b: nat)
    requires b in s.bfs
  {
    var p := s.bfs[b].phase;
    p.Chunk? && p.work.Some? ==> forall i | 0 <= i < |p.work.value.events| :: OfGen(s, p.work.value.events[i]) && p.work.value.events[i].snapshot
  }

  ghost predicate PurityOk(s: World) {
    && ClockOk(s)
    && LockOk(s)
    && (forall t | t in s.txns :: TxnOk(s, t))
    && (forall c | c in s.feeds :: FeedOk(s, c))
    && (forall b | b in s.bfs :: WorkOk(s, b))
    && (forall e | e in s.backlog :: OfGen(s, e))
    && (forall a | a in s.acked :: a.0 == a.1.gen)
  }

  /** What the rest of the invariant needs from a changed world: parts that it never reads. */
  predicate SameFor(s: World, s': World) {
    && s'.reg == s.reg && s'.lock == s.lock && s'.bfs == s.bfs && s'.leaving == s.leaving && s'.feeds == s.feeds
    && s'.backlog == s.backlog && s'.acked == s.acked && s'.clock >= s.clock
  }

  /** One transaction begins, changes or (absent from s') ends; nothing else does. */
  lemma TxnKeeps(s: World, s': World, t: nat)
    requires PurityOk(s) && SameFor(s, s')
    requires s'.txns.Keys <= s.txns.Keys + {t}
    requires forall u | u in s.txns && u != t :: u in s'.txns && s'.txns[u] == s.txns[u]
    requires t in s'.txns ==> t < s'.clock && TxnOk(s', t) && (t in s.txns && s.txns[t].shares ==> s'.txns[t].shares)
    requires t in s.txns && t !in s'.txns ==> !IsBatch(s, t)
    ensures PurityOk(s')
  {
    forall u | u in s'.txns ensures TxnOk(s', u) { if u != t { assert TxnOk(s, u); } }
    forall c | c in s'.feeds ensures FeedOk(s', c) { assert FeedOk(s, c); }
    forall b | b in s'.bfs ensures WorkOk(s', b) { assert WorkOk(s, b); }
  }

  lemma WriteKeeps(s: World, t: nat, id: Id, op: Op)
    requires PurityOk(s) && t in s.txns
    ensures PurityOk(WriteRow(s, t, id, op))
  {
    var s' := WriteRow(s, t, id, op);
    assert TxnOk(s, t);
    var row := NewRow(s, t, id, op);
    if row.Some? && s' != s {
      hide Apply, Publishes, NewRow;
      assert s'.txns[t] == Buffered(s, t, id, op, row.value);
      assert IsBatch(s', t) == IsBatch(s, t);
      BufferedIsOk(s, t, id, op, row.value);
      hide Buffered, PurityOk, Emits;
      TxnKeeps(s, s', t);
    }
  }

  lemma BufferedIsOk(s: World, t: nat, id: Id, op: Op, row: Row)
    requires t in s.txns && TxnOk(s, t) && (Emits(s, t, op, row) ==> !s.lock.ByLeave?)
    ensures
      var x, y := s.txns[t], Buffered(s, t, id, op, row);
      && (y.shares ==> s.reg.Some? && !s.lock.ByLeave?) && (!y.shares ==> y.events == {} && y.pulled == {})
      && (forall e | e in y.events :: OfGen(s, e) && !e.snapshot) && y.pulled == x.pulled && (x.shares ==> y.shares)
  {
    hide Publishes, MoveFor;
  }

  lemma BeginKeeps(s: World)
    requires PurityOk(s)
    ensures PurityOk(Next(s, Begin))
  {
    TxnKeeps(s, Next(s, Begin), s.clock);
  }

  lemma LookKeeps(s: World, t: nat)
    requires PurityOk(s) && t in s.txns
    ensures PurityOk(Next(s, Look(t)))
  {
    var s' := Next(s, Look(t));
    assert TxnOk(s, t);
    assert IsBatch(s', t) == IsBatch(s, t);
    TxnKeeps(s, s', t);
  }

  lemma EndKeeps(s: World, t: nat)
    requires PurityOk(s) && t in s.txns && !IsBatch(s, t)
    ensures PurityOk(Ended(s, t)) && PurityOk(CommitTxn(s, t))
  {
    assert TxnOk(s, t);
    TxnKeeps(s, Ended(s, t), t);
    BacklogKeeps(Ended(s, t), CommitTxn(s, t));
  }

  /** The backlog may lose anything and gain events of the registration. */
  lemma BacklogKeeps(s: World, s': World)
    requires PurityOk(s)
    requires s'.reg == s.reg && s'.lock == s.lock && s'.bfs == s.bfs && s'.leaving == s.leaving && s'.feeds == s.feeds
    requires s'.txns == s.txns && s'.clock == s.clock
    requires forall e | e in s'.backlog :: e in s.backlog || OfGen(s, e)
    requires forall a | a in s'.acked :: a in s.acked || a.0 == a.1.gen
    ensures PurityOk(s')
  {
    forall t | t in s'.txns ensures TxnOk(s', t) { assert TxnOk(s, t); }
    forall c | c in s'.feeds ensures FeedOk(s', c) { assert FeedOk(s, c); }
    forall b | b in s'.bfs ensures WorkOk(s', b) { assert WorkOk(s, b); }
  }

  lemma RegisterLocks(s: World, b: nat, filter: Filter, backfill: Option<Option<Time>>)
    requires ClockOk(s) && LockOk(s)
    ensures ClockOk(RegisterName(s, b, filter, backfill)) && LockOk(RegisterName(s, b, filter, backfill))
  {
  }

  lemma RegisterKeeps(s: World, b: nat, filter: Filter, backfill: Option<Option<Time>>)
    requires PurityOk(s)
    ensures PurityOk(RegisterName(s, b, filter, backfill))
  {
    var s' := RegisterName(s, b, filter, backfill);
    RegisterLocks(s, b, filter, backfill);
    hide ClockOk, LockOk;
    forall t | t in s'.txns ensures TxnOk(s', t) { assert TxnOk(s, t); assert IsBatch(s', t) == IsBatch(s, t); }
    forall c | c in s'.feeds ensures FeedOk(s', c) { assert FeedOk(s, c); }
    forall d | d in s'.bfs ensures WorkOk(s', d) { if d in s.bfs { assert WorkOk(s, d); } }
  }

  /** A backfiller moves on, taking or freeing the row lock as its phase demands. */
  lemma BackfillerKeeps(s: World, s': World, b: nat)
    requires PurityOk(s) && b in s.bfs && b in s'.bfs
    requires s' == s.(bfs := s.bfs[b := s'.bfs[b]], lock := s'.lock, nextSeq := s'.nextSeq)
    requires s'.bfs[b].gen == s.bfs[b].gen
    requires if s'.bfs[b].phase.Chunk?
             then s'.lock == ByChunk(b) && (s.lock.Free? || s.lock == ByChunk(b)) && OfRegistered(s, s.bfs[b].gen) && WorkOk(s', b)
             else s'.lock == (if s.lock == ByChunk(b) then Free else s.lock)
    ensures PurityOk(s')
  {
    forall t | t in s'.txns ensures TxnOk(s', t) { assert TxnOk(s, t); }
    forall c | c in s'.feeds ensures FeedOk(s', c) { assert FeedOk(s, c); }
    forall d | d in s'.bfs ensures WorkOk(s', d) { if d != b { assert WorkOk(s, d); } }
  }

  predicate OfRegistered(s: World, gen: nat) {
    s.reg.Some? && s.reg.value.gen == gen && s.reg.value.marker.Some?
  }

  lemma ScanKeeps(s: World, b: nat, ids: seq<Id>, limit: nat)
    requires PurityOk(s) && b in s.bfs && s.bfs[b].phase.Chunk? && s.bfs[b].phase.work.None?
    ensures PurityOk(ScanChunk(s, b, ids, limit))
  {
    hide Scans, IsChunk;
    var s' := ScanChunk(s, b, ids, limit);
    assert s.lock == ByChunk(b);
    if s' != s { BackfillerKeeps(s, s', b); }
  }

  lemma ChunkCommitKeeps(s: World, b: nat)
    requires PurityOk(s) && b in s.bfs && s.bfs[b].phase.Chunk? && s.bfs[b].phase.work.Some?
    ensures s.reg.Some? && PurityOk(CommitChunk(s, b, s.bfs[b].phase.work.value))
  {
    var work := s.bfs[b].phase.work.value;
    assert s.lock == ByChunk(b) && WorkOk(s, b);
    var s' := CommitChunk(s, b, work);
    forall t | t in s'.txns ensures TxnOk(s', t) { assert TxnOk(s, t); }
    forall c | c in s'.feeds ensures FeedOk(s', c) { assert FeedOk(s, c); }
    forall d | d in s'.bfs ensures WorkOk(s', d) { if d != b { assert WorkOk(s, d); } }
  }

  lemma CrashKeeps(s: World, b: nat)
    requires PurityOk(s) && b in s.bfs
    ensures PurityOk(Next(s, Crash(b)))
  {
    BackfillerKeeps(s, Next(s, Crash(b)), b);
  }

  /** A new consumer without a batch. */
  lemma FeedsGrow(s: World, s': World, c: nat, f: Consumer)
    requires PurityOk(s) && c !in s.feeds && f.batch.None? && f.gen < s.clock
    requires s' == s.(feeds := s.feeds[c := f])
    ensures PurityOk(s')
  {
    forall t | t in s'.txns ensures TxnOk(s', t) {
      assert TxnOk(s, t);
      if IsBatch(s, t) { var d :| d in s.feeds && s.feeds[d].batch == Some(t); assert s'.feeds[d].batch == Some(t); }
    }
    forall d | d in s'.feeds ensures FeedOk(s', d) { if d in s.feeds { assert FeedOk(s, d); } }
    forall d | d in s'.bfs ensures WorkOk(s', d) { assert WorkOk(s, d); }
  }

  lemma AttachKeeps(s: World, c: nat, b: nat)
    requires PurityOk(s)
    ensures PurityOk(Next(s, Attach(c, b)))
  {
    var s' := Next(s, Attach(c, b));
    if s' != s {
      assert s.bfs[b].gen < s.clock;
      hide PurityOk;
      FeedsGrow(s, s', c, Consumer(s.bfs[b].gen, s.bfs[b].phase.Stopped?, None));
    }
  }

  lemma PullKeeps(s: World, c: nat, seqnos: set<nat>, size: nat)
    requires PurityOk(s) && c in s.feeds
    ensures PurityOk(PullBatch(s, c, seqnos, size))
  {
    var s' := PullBatch(s, c, seqnos, size);
    if s' != s {
      var x := Txn(Closed, map[], {}, true, seqnos, []);
      if s'.feeds[c].closed { FeedKeeps(s, s', c); }
      else { OpenKeeps(s, s', c, x); }
    }
  }

  /** A feed without a batch closes. */
  lemma FeedKeeps(s: World, s': World, c: nat)
    requires PurityOk(s) && c in s.feeds && s.feeds[c].batch.None?
    requires s' == s.(feeds := s.feeds[c := s.feeds[c].(closed := true)])
    ensures PurityOk(s')
  {
    forall t | t in s'.txns ensures TxnOk(s', t) {
      assert TxnOk(s, t);
      if IsBatch(s, t) { var d :| d in s.feeds && s.feeds[d].batch == Some(t); assert s'.feeds[d].batch == Some(t); }
    }
    forall d | d in s'.feeds ensures FeedOk(s', d) { assert FeedOk(s, d); }
    forall d | d in s'.bfs ensures WorkOk(s', d) { assert WorkOk(s, d); }
  }

  /** A feed of the current generation opens a batch in a new transaction. */
  lemma OpenKeeps(s: World, s': World, c: nat, x: Txn)
    requires PurityOk(s) && c in s.feeds && s.feeds[c].batch.None? && !s.lock.ByLeave? && !Replaced(s, s.feeds[c].gen)
    requires x.shares && x.events == {}
    requires s' == s.(txns := s.txns[s.clock := x], clock := s.clock + 1, feeds := s.feeds[c := s.feeds[c].(batch := Some(s.clock))])
    ensures PurityOk(s')
  {
    forall t | t in s'.txns ensures TxnOk(s', t) {
      if t in s.txns {
        assert TxnOk(s, t);
        if IsBatch(s, t) { var d :| d in s.feeds && s.feeds[d].batch == Some(t); assert s'.feeds[d].batch == Some(t); }
      } else {
        assert s'.feeds[c].batch == Some(t);
      }
    }
    forall d | d in s'.feeds ensures FeedOk(s', d) { assert FeedOk(s, d); }
    forall d | d in s'.bfs ensures WorkOk(s', d) { assert WorkOk(s, d); }
  }

  /** A batch's transaction and its feed let go of each other together. */
  lemma BatchEndKeeps(s: World, c: nat)
    requires PurityOk(s) && c in s.feeds && s.feeds[c].batch.Some?
    ensures PurityOk(LeaveBatch(Ended(s, s.feeds[c].batch.value), c))
  {
    var t := s.feeds[c].batch.value;
    var s' := LeaveBatch(Ended(s, t), c);
    assert FeedOk(s, c);
    forall u | u in s'.txns ensures TxnOk(s', u) {
      assert TxnOk(s, u);
      if IsBatch(s, u) { var d :| d in s.feeds && s.feeds[d].batch == Some(u); assert s'.feeds[d].batch == Some(u); }
    }
    forall d | d in s'.feeds ensures FeedOk(s', d) { assert FeedOk(s, d); }
    forall d | d in s'.bfs ensures WorkOk(s', d) { assert WorkOk(s, d); }
  }

  lemma AckKeeps(s: World, c: nat)
    requires PurityOk(s) && c in s.feeds && s.feeds[c].batch.Some?
    ensures s.feeds[c].batch.value in s.txns && PurityOk(AckBatch(s, c, s.feeds[c].batch.value))
  {
    var t := s.feeds[c].batch.value;
    assert FeedOk(s, c) && TxnOk(s, t);
    BatchEndKeeps(s, c);
    BacklogKeeps(LeaveBatch(Ended(s, t), c), AckBatch(s, c, t));
  }

  /** What an unsubscribe's first statement changes: its own state, and the row's lock if it got it. */
  predicate LeaveMove(s: World, s': World, u: nat) {
    s' == s ||
    (u in s'.leaving && s' == s.(lock := s'.lock, leaving := s.leaving[u := s'.leaving[u]])
     && (u in s.leaving ==> s.leaving[u].Asking?)
     && (if s'.leaving[u].Holding? then s.reg.Some? && Unlocked(s) && s'.lock == ByLeave(u) else s'.lock == s.lock))
  }

  lemma TakeMoves(s: World, u: nat, gen: nat)
    requires u in s.leaving ==> s.leaving[u].Asking?
    ensures LeaveMove(s, TakeRow(s, u, gen), u)
  {
  }

  lemma LeaveMoves(s: World, u: nat)
    ensures LeaveMove(s, StartLeaving(s, u), u)
  {
    if u in s.leaving {
      if s.leaving[u].Asking? { TakeMoves(s, u, s.leaving[u].gen); }
    } else if s.reg.Some? {
      TakeMoves(s, u, s.reg.value.gen);
    }
    hide TakeRow;
  }

  lemma LeaveLocks(s: World, s': World, u: nat)
    requires LockOk(s) && LeaveMove(s, s', u)
    ensures LockOk(s')
  {
  }

  lemma LeaveKeeps(s: World, u: nat)
    requires PurityOk(s)
    ensures PurityOk(StartLeaving(s, u))
  {
    var s' := StartLeaving(s, u);
    LeaveMoves(s, u);
    assert LockOk(s);
    hide PurityOk, StartLeaving, LockOk;
    LeaveLocks(s, s', u);
    LeavingKeeps(s, s');
  }

  lemma LeaveDoneKeeps(s: World, u: nat)
    requires PurityOk(s) && u in s.leaving
    ensures PurityOk(FinishLeaving(s, u))
  {
    var s' := FinishLeaving(s, u);
    assert LockOk(s');
    LeavingKeeps(s, s');
  }

  lemma LeaveAbortKeeps(s: World, u: nat)
    requires PurityOk(s)
    ensures PurityOk(Next(s, LeaveAbort(u)))
  {
    var s' := Next(s, LeaveAbort(u));
    assert LockOk(s');
    LeavingKeeps(s, s');
  }

  /** Unsubscribing touches the registration, its lock and the backlog only. */
  lemma LeavingKeeps(s: World, s': World)
    requires PurityOk(s)
    requires s' == s.(reg := s'.reg, lock := s'.lock, leaving := s'.leaving, backlog := s'.backlog, dropped := s'.dropped, strayed := s'.strayed)
    requires LockOk(s') && s'.backlog <= s.backlog
    requires s'.reg == s.reg || (s'.reg.None? && s'.backlog == {} && s.lock.ByLeave?)
    requires s'.lock == s.lock || (s'.lock.Free? && s.lock.ByLeave?) || (s.lock.Free? && s'.lock.ByLeave? && forall t | t in s.txns :: !s.txns[t].shares)
    ensures PurityOk(s')
  {
    forall t | t in s'.txns ensures TxnOk(s', t) { assert TxnOk(s, t); assert IsBatch(s', t) == IsBatch(s, t); }
    forall c | c in s'.feeds ensures FeedOk(s', c) { assert FeedOk(s, c); if s.feeds[c].batch.Some? { assert TxnOk(s, s.feeds[c].batch.value); } }
    forall d | d in s'.bfs ensures WorkOk(s', d) { assert WorkOk(s, d); }
  }
}
