/** No gap: once a generation's backfill marker has cleared, every retained task that matches has had
    its current state published under that generation, whatever ran meanwhile. */
module FeedNoGap {
  import opened Rows
  import opened Feed
  import opened FeedPurity

  ghost predicate StoredOk(s: World) {
    && s.nextId >= 1
    && (forall id | id in s.tasks :: 1 <= id < s.nextId && Shaped(s.tasks[id]))
    && (forall t, id | t in s.txns && id in s.txns[t].writes :: 1 <= id < s.nextId && Shaped(s.txns[t].writes[id]))
    && (forall t, u, id | t in s.txns && u in s.txns && id in s.txns[t].writes && id in s.txns[u].writes :: t == u)
  }

  /** What the registration asks to see of this row: its state and type, and of finished tasks those of
      its window. */
  predicate Required(reg: Reg, row: Row) {
    && Matches(reg.filter, FaceOf(row))
    && (row.state.Terminal() && reg.since.Some? ==> row.finishedAt.Some? && row.finishedAt.value >= reg.since.value)
  }

  predicate Shows(e: Event, gen: nat, id: Id, row: Row) {
    e.gen == gen && e.id == id && e.face == FaceOf(row)
  }

  ghost predicate Published(s: World, gen: nat, id: Id, row: Row) {
    exists e :: e in s.published && Shows(e, gen, id, row)
  }

  /** The row lies ahead of its state's pending cursor. */
  predicate Beyond(m: Option<Marker>, id: Id, row: Row) {
    m.Some? && row.state in m.value.pending && id > m.value.pending[row.state]
  }

  /** A registration whose promise is being tracked: it backfills and its filters never changed. */
  predicate Promises(s: World) {
    s.reg.Some? && s.reg.value.backfills && s.reg.value.stable
  }

  /** A transaction that began after the registration sees it in every statement. */
  predicate ViewOk(s: World, t: nat)
    requires t in s.txns
  {
    var v := s.txns[t].view;
    s.reg.Some? && t >= s.reg.value.gen && v.Open? ==>
      v.reg.Some? && v.reg.value.gen == s.reg.value.gen && (s.reg.value.stable ==> v.reg.value.filter == s.reg.value.filter)
  }

  ghost predicate Buffers(x: Txn, gen: nat, id: Id, row: Row) {
    exists e :: e in x.events && Shows(e, gen, id, row)
  }

  predicate SameShow(r: Row, q: Row) { FaceOf(r) == FaceOf(q) && r.finishedAt == q.finishedAt }

  /** ... so whatever it wrote is buffered as an event, or shows nothing new. */
  ghost predicate TxnCovered(s: World, t: nat)
    requires t in s.txns
  {
    Promises(s) && t >= s.reg.value.gen ==>
      forall id | id in s.txns[t].writes && Required(s.reg.value, s.txns[t].writes[id]) ::
        || Buffers(s.txns[t], s.reg.value.gen, id, s.txns[t].writes[id])
        || (id in s.tasks && SameShow(s.tasks[id], s.txns[t].writes[id]))
  }

  ghost predicate NoOlderTxn(s: World) {
    s.reg.Some? ==> forall t | t in s.txns :: t >= s.reg.value.gen
  }

  /** The barrier: a backfiller that may scan has outwaited every transaction older than the
      registration, and until then the marker stands at its beginning. */
  ghost predicate BarrierOk(s: World) {
    s.reg.Some? && s.reg.value.backfills ==>
      && (forall b | b in s.bfs && s.bfs[b].gen == s.reg.value.gen :: PastBarrier(s, s.bfs[b].phase))
      && (s.reg.value.marker.Some? ==> s.reg.value.marker.value.since == s.reg.value.since)
      && (!NoOlderTxn(s) ==> AtBeginning(s.reg.value))
  }

  ghost predicate PastBarrier(s: World, p: Phase)
    requires s.reg.Some?
  {
    && (p.Waiting? ==> forall t | t in s.txns && t < s.reg.value.gen :: t in p.captured)
    && (p.Scanning? || p.Chunk? ==> NoOlderTxn(s))
  }

  predicate AtBeginning(reg: Reg) {
    && reg.marker.Some?
    && (reg.stable ==> reg.marker.value.pending == map st | st in reg.filter.states :: 0)
  }

  ghost predicate Covered(s: World) {
    Promises(s) ==>
      forall id | id in s.tasks && Required(s.reg.value, s.tasks[id]) ::
        Published(s, s.reg.value.gen, id, s.tasks[id]) || Beyond(s.reg.value.marker, id, s.tasks[id])
  }

  /** The same, as it will be when the open chunk commits. */
  ghost predicate ChunkCovered(s: World, b: nat)
    requires b in s.bfs
  {
    var p := s.bfs[b].phase;
    p.Chunk? && p.work.Some? && s.reg.Some? && s.bfs[b].gen == s.reg.value.gen && s.reg.value.backfills ==>
      && (p.work.value.marker.Some? ==> p.work.value.marker.value.since == s.reg.value.since)
      && (s.reg.value.stable ==> forall id | id in s.tasks && Required(s.reg.value, s.tasks[id]) :: WillShow(s, p.work.value, id))
  }

  ghost predicate WillShow(s: World, w: Work, id: Id)
    requires s.reg.Some? && id in s.tasks
  {
    || Published(s, s.reg.value.gen, id, s.tasks[id])
    || (exists i | 0 <= i < |w.events| :: Shows(w.events[i], s.reg.value.gen, id, s.tasks[id]))
    || Beyond(w.marker, id, s.tasks[id])
  }

  ghost predicate GapOk(s: World) {
    && StoredOk(s)
    && (forall t | t in s.txns :: ViewOk(s, t) && TxnCovered(s, t))
    && BarrierOk(s)
    && Covered(s)
    && (forall b | b in s.bfs :: ChunkCovered(s, b))
  }

  /** Same rows, registration and backfillers, no new or changed transaction, nothing unpublished. */
  predicate NoLess(s: World, s': World) {
    && s'.tasks == s.tasks && s'.nextId == s.nextId && s'.reg == s.reg && s'.bfs == s.bfs
    && s.published <= s'.published
    && (forall t | t in s'.txns :: t in s.txns && s'.txns[t] == s.txns[t])
  }

  lemma NoLessKeeps(s: World, s': World)
    requires GapOk(s) && NoLess(s, s')
    ensures GapOk(s')
  {
    forall t | t in s'.txns ensures ViewOk(s', t) && TxnCovered(s', t) { assert ViewOk(s, t) && TxnCovered(s, t); }
    PublishedGrows(s, s');
    forall b | b in s'.bfs ensures ChunkCovered(s', b) { assert ChunkCovered(s, b); KeepsWillShow(s, s', b); }
  }

  lemma PublishedGrows(s: World, s': World)
    requires s.published <= s'.published
    ensures forall gen, id, row :: Published(s, gen, id, row) ==> Published(s', gen, id, row)
  {
  }

  lemma KeepsWillShow(s: World, s': World, b: nat)
    requires b in s.bfs && b in s'.bfs && ChunkCovered(s, b) && s'.bfs[b] == s.bfs[b]
    requires s'.tasks == s.tasks && s'.reg == s.reg && s.published <= s'.published
    ensures ChunkCovered(s', b)
  {
    PublishedGrows(s, s');
    var p := s.bfs[b].phase;
    if p.Chunk? && p.work.Some? && Promises(s) && s.bfs[b].gen == s.reg.value.gen {
      forall id | id in s'.tasks && Required(s'.reg.value, s'.tasks[id]) ensures WillShow(s', p.work.value, id) {
        assert WillShow(s, p.work.value, id);
      }
    }
  }

  // --------------------------------------------------------------------------------- transactions

  /** Only transactions changed, and no old one appeared. */
  lemma TxnsKeepGap(s: World, s': World)
    requires GapOk(s) && StoredOk(s')
    requires s'.tasks == s.tasks && s'.reg == s.reg && s'.bfs == s.bfs && s'.published == s.published
    requires forall t | t in s'.txns :: ViewOk(s', t) && TxnCovered(s', t)
    requires forall t | t in s'.txns :: t in s.txns || (s.reg.Some? ==> t >= s.reg.value.gen)
    ensures GapOk(s')
  {
    forall b | b in s'.bfs ensures ChunkCovered(s', b) { assert ChunkCovered(s, b); KeepsWillShow(s, s', b); }
    if s.reg.Some? && s.reg.value.backfills {
      forall b | b in s'.bfs && s'.bfs[b].gen == s'.reg.value.gen ensures PastBarrier(s', s'.bfs[b].phase) {
        assert PastBarrier(s, s.bfs[b].phase);
      }
      assert NoOlderTxn(s) ==> NoOlderTxn(s');
    }
  }

  /** A transaction that has written nothing yet. */
  lemma NewTxnKeepsGap(s: World, s': World, t: nat, x: Txn)
    requires GapOk(s) && t !in s.txns && (s.reg.Some? ==> t >= s.reg.value.gen)
    requires x.view.Closed? && x.writes == map[] && s'.txns == s.txns[t := x]
    requires s'.tasks == s.tasks && s'.nextId == s.nextId && s'.reg == s.reg && s'.bfs == s.bfs && s'.published == s.published
    ensures GapOk(s')
  {
    forall u | u in s'.txns ensures ViewOk(s', u) && TxnCovered(s', u) {
      if u != t { assert ViewOk(s, u) && TxnCovered(s, u); }
    }
    assert StoredOk(s');
    hide StoredOk, ViewOk, TxnCovered;
    TxnsKeepGap(s, s');
  }

  lemma BeginKeepsGap(s: World)
    requires PurityOk(s) && GapOk(s)
    ensures GapOk(Next(s, Begin))
  {
    assert s.clock !in s.txns;
    hide GapOk, PurityOk;
    NewTxnKeepsGap(s, Next(s, Begin), s.clock, Txn(Closed, map[], {}, false, {}, []));
  }

  lemma LookKeepsGap(s: World, t: nat)
    requires PurityOk(s) && GapOk(s) && t in s.txns
    ensures GapOk(Next(s, Look(t)))
  {
    var s' := Next(s, Look(t));
    forall u | u in s'.txns ensures ViewOk(s', u) && TxnCovered(s', u) {
      assert ViewOk(s, u) && TxnCovered(s, u);
      assert s'.txns[u].writes == s.txns[u].writes && s'.txns[u].events == s.txns[u].events;
    }
    TxnsKeepGap(s, s');
  }

  /** A transaction that wrote one more row stays covered if that row is. */
  lemma OneRowMore(s: World, s': World, t: nat, id: Id, row: Row)
    requires t in s.txns && t in s'.txns && TxnCovered(s, t) && Promises(s) && t >= s.reg.value.gen
    requires s'.reg == s.reg && s'.tasks == s.tasks
    requires s'.txns[t].writes == s.txns[t].writes[id := row] && s.txns[t].events <= s'.txns[t].events
    requires Required(s.reg.value, row) ==>
      Buffers(s'.txns[t], s.reg.value.gen, id, row) || (id in s.tasks && SameShow(s.tasks[id], row))
    ensures TxnCovered(s', t)
  {
    var x, x' := s.txns[t], s'.txns[t];
    hide Buffers;
    forall i | i in x'.writes && Required(s'.reg.value, x'.writes[i])
      ensures Buffers(x', s'.reg.value.gen, i, x'.writes[i]) || (i in s'.tasks && SameShow(s'.tasks[i], x'.writes[i]))
    {
      if i != id && Buffers(x, s.reg.value.gen, i, x.writes[i]) { BuffersGrow(x, x', s.reg.value.gen, i, x.writes[i]); }
    }
  }

  lemma WriteIsCovered(s: World, t: nat, id: Id, op: Op)
    requires PurityOk(s) && GapOk(s) && t in s.txns
    ensures TxnCovered(WriteRow(s, t, id, op), t)
  {
    var s' := WriteRow(s, t, id, op);
    assert TxnCovered(s, t);
    var row := NewRow(s, t, id, op);
    hide GapOk, PurityOk, Buffers;
    if s' != s && Promises(s) && t >= s.reg.value.gen {
      if Required(s.reg.value, row.value) { NewRowIsCovered(s, t, id, op); }
      hide Apply, Publishes, NewRow;
      assert s'.txns[t] == Buffered(s, t, id, op, row.value) && s'.reg == s.reg && s'.tasks == s.tasks;
      hide TxnCovered;
      OneRowMore(s, s', t, id, row.value);
    }
  }

  /** The row just written: its event is in the same transaction, or it shows nothing new. */
  lemma NewRowIsCovered(s: World, t: nat, id: Id, op: Op)
    requires GapOk(s) && t in s.txns && Promises(s) && t >= s.reg.value.gen
    requires NewRow(s, t, id, op).Some? && Required(s.reg.value, NewRow(s, t, id, op).value)
    ensures
      var row := NewRow(s, t, id, op).value;
      Buffers(Buffered(s, t, id, op, row), s.reg.value.gen, id, row) || (id in s.tasks && SameShow(s.tasks[id], row))
  {
    assert ViewOk(s, t) && TxnCovered(s, t);
    var row := NewRow(s, t, id, op).value;
    var x, x' := s.txns[t], Buffered(s, t, id, op, row);
    if Publishes(op, row) {
      assert Emits(s, t, op, row) && EventFor(s, id, row) in x'.events;
      assert Shows(EventFor(s, id, row), s.reg.value.gen, id, row);
    } else {
      QuietWritesShowTheSame(op, Found(s, x, id));
      hide Apply, Publishes, NewRow, GapOk;
      if id in x.writes {
        assert Required(s.reg.value, x.writes[id]);
        if Buffers(x, s.reg.value.gen, id, x.writes[id]) { BuffersGrow(x, x', s.reg.value.gen, id, x.writes[id]); }
      }
    }
  }

  lemma BuffersGrow(x: Txn, x': Txn, gen: nat, id: Id, row: Row)
    requires Buffers(x, gen, id, row) && x.events <= x'.events
    ensures Buffers(x', gen, id, row)
  {
  }

  lemma WriteIsStored(s: World, t: nat, id: Id, op: Op)
    requires StoredOk(s) && t in s.txns
    ensures StoredOk(WriteRow(s, t, id, op))
  {
    var s' := WriteRow(s, t, id, op);
    var row := NewRow(s, t, id, op);
    if s' != s {
      var found := Found(s, s.txns[t], id);
      assert (op.Insert? || found.Some?) && !LockedByOther(s, t, id);
      WriteKeepsShape(op, found);
      assert Shaped(row.value) && 1 <= id < s'.nextId && s'.nextId >= s.nextId && s'.tasks == s.tasks;
      assert s'.txns == s.txns[t := s'.txns[t]] && s'.txns[t].writes == s.txns[t].writes[id := row.value];
      hide Apply, NewRow, WriteRow, Buffered;
      OneMoreRow(s, s', t, id, row.value);
    }
  }

  lemma OneMoreRow(s: World, s': World, t: nat, id: Id, row: Row)
    requires StoredOk(s) && t in s.txns && !LockedByOther(s, t, id) && Shaped(row) && 1 <= id < s'.nextId && s'.nextId >= s.nextId
    requires s'.tasks == s.tasks && t in s'.txns && s'.txns == s.txns[t := s'.txns[t]] && s'.txns[t].writes == s.txns[t].writes[id := row]
    ensures StoredOk(s')
  {
  }

  lemma WriteKeepsGap(s: World, t: nat, id: Id, op: Op)
    requires PurityOk(s) && GapOk(s) && t in s.txns
    ensures GapOk(WriteRow(s, t, id, op))
  {
    var s' := WriteRow(s, t, id, op);
    WriteIsStored(s, t, id, op);
    WriteIsCovered(s, t, id, op);
    if s' != s {
      hide NewRow, Buffered, StoredOk;
      assert s' == s.(txns := s.txns[t := s'.txns[t]], nextId := s'.nextId, nextSeq := s'.nextSeq);
      assert s'.txns[t].view == s.txns[t].view by { BufferedKeepsView(s, t, id, op); }
      forall u | u in s'.txns ensures ViewOk(s', u) && TxnCovered(s', u) { assert ViewOk(s, u) && TxnCovered(s, u); }
      TxnsKeepGap(s, s');
    }
  }

  lemma BufferedKeepsView(s: World, t: nat, id: Id, op: Op)
    requires t in s.txns
    ensures t in WriteRow(s, t, id, op).txns && WriteRow(s, t, id, op).txns[t].view == s.txns[t].view
  {
  }

  /** A commit makes its rows and its events visible together. An old transaction may bring rows that
      no event shows, but then no chunk has run and every cursor is still behind them. */
  lemma CommitKeepsGap(s: World, t: nat)
    requires PurityOk(s) && GapOk(s) && t in s.txns
    ensures GapOk(CommitTxn(s, t))
  {
    var s' := CommitTxn(s, t);
    PublishedGrows(s, s');
    forall u | u in s'.txns ensures ViewOk(s', u) && TxnCovered(s', u) {
      assert ViewOk(s, u) && TxnCovered(s, u);
      if Promises(s') && u >= s'.reg.value.gen {
        forall id | id in s'.txns[u].writes && Required(s'.reg.value, s'.txns[u].writes[id])
          ensures Buffers(s'.txns[u], s'.reg.value.gen, id, s'.txns[u].writes[id])
               || (id in s'.tasks && SameShow(s'.tasks[id], s'.txns[u].writes[id]))
        {
          assert id !in s.txns[t].writes;
        }
      }
    }
    if Promises(s') {
      forall id | id in s'.tasks && Required(s'.reg.value, s'.tasks[id])
        ensures Published(s', s'.reg.value.gen, id, s'.tasks[id]) || Beyond(s'.reg.value.marker, id, s'.tasks[id])
      {
        CommittedIsCovered(s, t, id);
      }
    }
    forall b | b in s'.bfs ensures ChunkCovered(s', b) {
      assert ChunkCovered(s, b);
      var p := s.bfs[b].phase;
      if p.Chunk? && p.work.Some? && Promises(s) && s.bfs[b].gen == s.reg.value.gen {
        assert PastBarrier(s, p);
        forall id | id in s'.tasks && Required(s'.reg.value, s'.tasks[id]) ensures WillShow(s', p.work.value, id) {
          CommittedWillShow(s, t, b, id);
        }
      }
    }
  }

  /** A row committed by a newer transaction is published, or shows what the old row showed. */
  lemma NewerIsPublished(s: World, t: nat, id: Id)
    requires GapOk(s) && Promises(s) && t in s.txns && t >= s.reg.value.gen && id in s.txns[t].writes
    requires Required(s.reg.value, s.txns[t].writes[id])
    ensures Published(CommitTxn(s, t), s.reg.value.gen, id, s.txns[t].writes[id])
         || (id in s.tasks && SameShow(s.tasks[id], s.txns[t].writes[id]))
  {
    assert TxnCovered(s, t);
    if Buffers(s.txns[t], s.reg.value.gen, id, s.txns[t].writes[id]) {
      var e :| e in s.txns[t].events && Shows(e, s.reg.value.gen, id, s.txns[t].writes[id]);
      assert e in CommitTxn(s, t).published;
    }
  }

  lemma CommittedIsCovered(s: World, t: nat, id: Id)
    requires GapOk(s) && Promises(s) && t in s.txns
    requires var s' := CommitTxn(s, t); id in s'.tasks && Required(s.reg.value, s'.tasks[id])
    ensures var s' := CommitTxn(s, t);
      Published(s', s.reg.value.gen, id, s'.tasks[id]) || Beyond(s.reg.value.marker, id, s'.tasks[id])
  {
    var s' := CommitTxn(s, t);
    PublishedGrows(s, s');
    if id in s.txns[t].writes {
      if t < s.reg.value.gen { assert AtBeginning(s.reg.value); }
      else { NewerIsPublished(s, t, id); }
    }
  }

  lemma CommittedWillShow(s: World, t: nat, b: nat, id: Id)
    requires GapOk(s) && Promises(s) && t in s.txns && t >= s.reg.value.gen && b in s.bfs && s.bfs[b].gen == s.reg.value.gen
    requires s.bfs[b].phase.Chunk? && s.bfs[b].phase.work.Some?
    requires var s' := CommitTxn(s, t); id in s'.tasks && Required(s.reg.value, s'.tasks[id])
    ensures WillShow(CommitTxn(s, t), s.bfs[b].phase.work.value, id)
  {
    var s' := CommitTxn(s, t);
    PublishedGrows(s, s');
    assert ChunkCovered(s, b);
    if id in s.txns[t].writes { NewerIsPublished(s, t, id); }
    if id in s.tasks && SameShow(s.tasks[id], s'.tasks[id]) { assert WillShow(s, s.bfs[b].phase.work.value, id); }
  }

  lemma PurgeKeepsChunk(s: World, s': World, id: Id, b: nat)
    requires b in s.bfs && ChunkCovered(s, b) && s' == s.(tasks := s.tasks - {id})
    ensures ChunkCovered(s', b)
  {
    var p := s.bfs[b].phase;
    if p.Chunk? && p.work.Some? && Promises(s) && s.bfs[b].gen == s.reg.value.gen {
      forall i | i in s'.tasks && Required(s'.reg.value, s'.tasks[i]) ensures WillShow(s', p.work.value, i) {
        assert WillShow(s, p.work.value, i);
      }
    }
  }

  lemma PurgeKeepsTxn(s: World, s': World, id: Id, t: nat)
    requires ClockOk(s) && t in s.txns && ViewOk(s, t) && TxnCovered(s, t)
    requires s' == s.(tasks := s.tasks - {id}) && !LockedByOther(s, s.clock, id)
    ensures ViewOk(s', t) && TxnCovered(s', t)
  {
    assert t != s.clock && id !in s.txns[t].writes;
    hide Buffers;
  }

  lemma PurgeKeepsGap(s: World, id: Id)
    requires PurityOk(s) && GapOk(s)
    ensures GapOk(Next(s, PurgeTask(id)))
  {
    var s' := Next(s, PurgeTask(id));
    if s' != s {
      forall t | t in s'.txns ensures ViewOk(s', t) && TxnCovered(s', t) {
        assert ViewOk(s, t) && TxnCovered(s, t);
        PurgeKeepsTxn(s, s', id, t);
      }
      hide TxnCovered, ViewOk, ChunkCovered, WillShow, PurityOk;
      forall b | b in s'.bfs ensures ChunkCovered(s', b) { PurgeKeepsChunk(s, s', id, b); }
    }
  }

  lemma BatchEndKeepsGap(s: World, c: nat, t: nat)
    requires PurityOk(s) && GapOk(s) && c in s.feeds && t in s.txns
    ensures GapOk(AckBatch(s, c, t)) && GapOk(LeaveBatch(Ended(s, t), c))
  {
    CommitKeepsGap(s, t);
    NoLessKeeps(CommitTxn(s, t), AckBatch(s, c, t));
    NoLessKeeps(s, LeaveBatch(Ended(s, t), c));
  }

  lemma PullShape(s: World, c: nat, seqnos: set<nat>, size: nat)
    requires c in s.feeds
    ensures
      var s' := PullBatch(s, c, seqnos, size);
      && s'.tasks == s.tasks && s'.nextId == s.nextId && s'.reg == s.reg && s'.bfs == s.bfs && s'.published == s.published
      && (s'.txns == s.txns || s'.txns == s.txns[s.clock := Txn(Closed, map[], {}, true, seqnos, [])])
  {
  }

  lemma PullKeepsGap(s: World, c: nat, seqnos: set<nat>, size: nat)
    requires PurityOk(s) && GapOk(s) && c in s.feeds
    ensures GapOk(PullBatch(s, c, seqnos, size))
  {
    PullShape(s, c, seqnos, size);
    assert s.clock !in s.txns;
    hide PullBatch, GapOk, PurityOk;
    var s' := PullBatch(s, c, seqnos, size);
    if s'.txns == s.txns { NoLessKeeps(s, s'); }
    else { NewTxnKeepsGap(s, s', s.clock, s'.txns[s.clock]); }
  }

  // ---------------------------------------------------------------------- registration and backfill

  /** A new generation starts with every cursor at zero, so nothing is missing yet. */
  lemma RegisterKeepsGap(s: World, b: nat, filter: Filter, backfill: Option<Option<Time>>)
    requires PurityOk(s) && GapOk(s)
    ensures GapOk(RegisterName(s, b, filter, backfill))
  {
    var s' := RegisterName(s, b, filter, backfill);
    if s' != s {
      forall t | t in s'.txns ensures ViewOk(s', t) && TxnCovered(s', t) {
        assert ViewOk(s, t) && TxnCovered(s, t);
      }
      if s.reg.None? { assert forall d | d in s.bfs :: s.bfs[d].gen < s'.reg.value.gen; }
      forall d | d in s'.bfs ensures ChunkCovered(s', d) {
        if d in s.bfs {
          assert ChunkCovered(s, d);
          assert !s.bfs[d].phase.Chunk?;
        }
      }
      if s'.reg.value.backfills { RegisterKeepsBarrier(s, s', b); }
    }
  }

  lemma RegisterKeepsBarrier(s: World, s': World, b: nat)
    requires PurityOk(s) && GapOk(s) && s'.txns == s.txns && s'.reg.Some? && s'.reg.value.backfills && b !in s.bfs
    requires s'.bfs.Keys == s.bfs.Keys + {b} && (forall d | d in s.bfs :: s'.bfs[d] == s.bfs[d])
    requires !s'.bfs[b].phase.Waiting? && !s'.bfs[b].phase.Scanning? && !s'.bfs[b].phase.Chunk?
    requires if s.reg.Some? then s'.reg.value.gen == s.reg.value.gen && s.reg.value.backfills && s'.reg.value.marker == s.reg.value.marker
                               && s'.reg.value.since == s.reg.value.since
                               && (s'.reg.value.stable ==> s.reg.value.stable && s'.reg.value.filter == s.reg.value.filter)
             else s'.reg.value.gen == s.clock && AtBeginning(s'.reg.value) && s'.reg.value.marker.value.since == s'.reg.value.since
    ensures BarrierOk(s')
  {
    forall d | d in s'.bfs && s'.bfs[d].gen == s'.reg.value.gen ensures PastBarrier(s', s'.bfs[d].phase) {
      if d in s.bfs && s.reg.Some? { assert PastBarrier(s, s.bfs[d].phase); }
    }
    if s.reg.Some? { assert NoOlderTxn(s) ==> NoOlderTxn(s'); }
  }

  /** A backfiller moves on without touching rows, registration or events. */
  lemma PhaseKeepsGap(s: World, s': World, b: nat)
    requires PurityOk(s) && GapOk(s) && b in s.bfs && b in s'.bfs
    requires s'.tasks == s.tasks && s'.nextId == s.nextId && s'.reg == s.reg && s'.published == s.published && s'.txns == s.txns
    requires s'.bfs == s.bfs[b := s'.bfs[b]] && s'.bfs[b].gen == s.bfs[b].gen
    requires s.reg.Some? && s.reg.value.backfills && s.bfs[b].gen == s.reg.value.gen ==> PastBarrier(s', s'.bfs[b].phase)
    requires ChunkCovered(s', b)
    ensures GapOk(s')
  {
    forall t | t in s'.txns ensures ViewOk(s', t) && TxnCovered(s', t) { assert ViewOk(s, t) && TxnCovered(s, t); }
    forall d | d in s'.bfs ensures ChunkCovered(s', d) { if d != b { assert ChunkCovered(s, d); KeepsWillShow(s, s', d); } }
    if s.reg.Some? && s.reg.value.backfills {
      forall d | d in s'.bfs && s'.bfs[d].gen == s'.reg.value.gen ensures PastBarrier(s', s'.bfs[d].phase) {
        if d != b { assert PastBarrier(s, s.bfs[d].phase); assert NoOlderTxn(s) == NoOlderTxn(s'); }
      }
      assert NoOlderTxn(s) == NoOlderTxn(s');
    }
  }

  /** Its own phase stays past the barrier, and a chunk without work promises nothing yet. */
  lemma MovesOn(s: World, b: nat, p: Phase)
    requires PurityOk(s) && GapOk(s) && b in s.bfs
    requires p.Chunk? ==> p.work.None?
    requires s.reg.Some? && s.reg.value.backfills && s.bfs[b].gen == s.reg.value.gen && PastBarrier(s, s.bfs[b].phase) ==> PastBarrier(s, p)
    ensures GapOk(SetPhase(s, b, p))
  {
    var s' := SetPhase(s, b, p);
    assert s.reg.Some? ==> PastBarrier(s, p) == PastBarrier(s', p);
    PhaseKeepsGap(s, s', b);
  }

  lemma CaptureKeepsGap(s: World, b: nat)
    requires PurityOk(s) && GapOk(s) && b in s.bfs
    ensures GapOk(SetPhase(s, b, Waiting(s.txns.Keys)))
  {
    MovesOn(s, b, Waiting(s.txns.Keys));
  }

  /** Every transaction older than the registration was captured, so once the captured ones are gone
      none is left. */
  lemma PollKeepsGap(s: World, b: nat)
    requires PurityOk(s) && GapOk(s) && b in s.bfs && s.bfs[b].phase.Waiting?
    ensures GapOk(PollBarrier(s, b))
  {
    if s.bfs[b].phase.captured !! s.txns.Keys { MovesOn(s, b, Scanning); } else { MovesOn(s, b, Stopped); }
  }

  lemma LockKeepsGap(s: World, b: nat)
    requires PurityOk(s) && GapOk(s) && b in s.bfs && s.bfs[b].phase.Scanning?
    ensures GapOk(LockChunk(s, b))
  {
    MovesOn(s, b, Stopped);
    MovesOn(s, b, Finished);
    MovesOn(s, b, Chunk(None));
    NoLessKeeps(SetPhase(s, b, Chunk(None)), SetPhase(s, b, Chunk(None)).(lock := ByChunk(b)));
  }

  lemma CrashKeepsGap(s: World, b: nat)
    requires PurityOk(s) && GapOk(s) && b in s.bfs
    ensures GapOk(Next(s, Crash(b)))
  {
    MovesOn(s, b, Stopped);
    NoLessKeeps(SetPhase(s, b, Stopped), Next(s, Crash(b)));
  }

  // --------------------------------------------------------------------------------------- chunks

  /** Whatever the scan left out of the chunk is ahead of the cursor it will leave behind. */
  lemma ScannedWillShow(s: World, ids: seq<Id>, limit: nat, id: Id)
    requires GapOk(s) && Promises(s) && s.reg.value.marker.Some? && Scans(s, s.reg.value, s.reg.value.marker.value, ids, limit)
    requires id in s.tasks && Required(s.reg.value, s.tasks[id])
    ensures WillShow(s, Project(s, s.reg.value, s.reg.value.marker.value, ids, limit), id)
  {
    var reg := s.reg.value;
    var m := reg.marker.value;
    var w := Project(s, reg, m, ids, limit);
    var row := s.tasks[id];
    if !Published(s, reg.gen, id, row) {
      assert Beyond(reg.marker, id, row);
      var state := FirstPending(m.pending);
      if row.state != state {
        assert w.marker == Advanced(m, state, ids, limit);
        assert row.state in m.pending - {state};
        assert |ids| == limit ==> row.state in m.pending[state := ids[|ids| - 1]];
      } else {
        assert Eligible(s, reg, state, m.pending[state], m.since, id);
        if id in ids {
          var i :| 0 <= i < |ids| && ids[i] == id;
          assert Shows(w.events[i], reg.gen, id, row);
        } else {
          assert |ids| == limit && ids[|ids| - 1] < id;
          assert Advanced(m, state, ids, limit) == w.marker;
          assert state in m.pending[state := ids[|ids| - 1]];
        }
      }
    }
  }

  lemma ScanKeepsGap(s: World, b: nat, ids: seq<Id>, limit: nat)
    requires PurityOk(s) && GapOk(s) && b in s.bfs && s.bfs[b].phase.Chunk? && s.bfs[b].phase.work.None?
    ensures GapOk(ScanChunk(s, b, ids, limit))
  {
    var s' := ScanChunk(s, b, ids, limit);
    if s' != s {
      var w := Project(s, s.reg.value, s.reg.value.marker.value, ids, limit);
      if s.reg.value.backfills && s.bfs[b].gen == s.reg.value.gen {
        assert PastBarrier(s, s.bfs[b].phase);
        assert NoOlderTxn(s) == NoOlderTxn(s');
        assert w.marker.Some? ==> w.marker.value.since == s.reg.value.since;
        if s.reg.value.stable {
          forall id | id in s'.tasks && Required(s'.reg.value, s'.tasks[id]) ensures WillShow(s', w, id) {
            ScannedWillShow(s, ids, limit, id);
            assert WillShow(s, w, id);
          }
        }
      }
      hide Scans, Project;
      PhaseKeepsGap(s, s', b);
    }
  }

  lemma ChunkKeepsGap(s: World, b: nat)
    requires PurityOk(s) && GapOk(s) && b in s.bfs && s.bfs[b].phase.Chunk? && s.bfs[b].phase.work.Some? && s.reg.Some?
    ensures GapOk(CommitChunk(s, b, s.bfs[b].phase.work.value))
  {
    var w := s.bfs[b].phase.work.value;
    var s' := CommitChunk(s, b, w);
    PublishedGrows(s, s');
    assert s.lock == ByChunk(b) && ChunkCovered(s, b);
    forall t | t in s'.txns ensures ViewOk(s', t) && TxnCovered(s', t) { assert ViewOk(s, t) && TxnCovered(s, t); }
    if s.reg.value.backfills {
      assert PastBarrier(s, s.bfs[b].phase);
      assert NoOlderTxn(s');
      forall d | d in s'.bfs && s'.bfs[d].gen == s'.reg.value.gen ensures PastBarrier(s', s'.bfs[d].phase) {
        assert PastBarrier(s, s.bfs[d].phase);
      }
    }
    if Promises(s') {
      forall id | id in s'.tasks && Required(s'.reg.value, s'.tasks[id])
        ensures Published(s', s'.reg.value.gen, id, s'.tasks[id]) || Beyond(s'.reg.value.marker, id, s'.tasks[id])
      {
        assert WillShow(s, w, id);
        if i :| 0 <= i < |w.events| && Shows(w.events[i], s.reg.value.gen, id, s.tasks[id]) {
          assert w.events[i] in s'.published;
        }
      }
    }
    forall d | d in s'.bfs ensures ChunkCovered(s', d) { if d != b { assert !s.bfs[d].phase.Chunk?; } }
  }

  lemma LeaveKeepsGap(s: World, u: nat)
    requires PurityOk(s) && GapOk(s)
    ensures GapOk(StartLeaving(s, u))
  {
    LeaveMoves(s, u);
    hide GapOk, PurityOk, StartLeaving;
    NoLessKeeps(s, StartLeaving(s, u));
  }

  lemma LeaveDoneKeepsGap(s: World, u: nat)
    requires PurityOk(s) && GapOk(s) && u in s.leaving
    ensures GapOk(FinishLeaving(s, u))
  {
    var s' := FinishLeaving(s, u);
    if s.leaving[u].Holding? { NoPromiseLeft(s, s'); } else { NoLessKeeps(s, s'); }
  }

  lemma NoPromiseLeft(s: World, s': World)
    requires GapOk(s) && s'.reg.None? && s'.tasks == s.tasks && s'.nextId == s.nextId && s'.txns == s.txns
    ensures GapOk(s')
  {
  }
}
