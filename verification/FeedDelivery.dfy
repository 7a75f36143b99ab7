/** Delivery: every event ever committed is in exactly one place, batches never share a row, and an
    acknowledgement removes exactly its own batch. */
module FeedDelivery {
  import opened Rows
  import opened Feed
  import opened FeedPurity

  /** Where an event can be: committed, buffered by a transaction, or inserted by an open chunk. */
  datatype Place = Committed | InTxn(t: nat) | InChunk(b: nat, i: nat)

  predicate At(s: World, p: Place, e: Event) {
    match p
    case Committed => e in s.published
    case InTxn(t) => t in s.txns && e in s.txns[t].events
    case InChunk(b, i) =>
      b in s.bfs && s.bfs[b].phase.Chunk? && s.bfs[b].phase.work.Some?
      && i < |s.bfs[b].phase.work.value.events| && s.bfs[b].phase.work.value.events[i] == e
  }

  /** A sequence number names one event in one place. */
  ghost predicate SeqOk(s: World) {
    && (forall p, e | At(s, p, e) :: e.seqno < s.nextSeq)
    && (forall p, q, e, f | At(s, p, e) && At(s, q, f) && e.seqno == f.seqno :: p == q && e == f)
  }

  function One(b: bool): nat { if b then 1 else 0 }

  function AckedEvents(s: World): set<Event> { set a | a in s.acked :: a.1 }

  /** In how many of backlog, acknowledged, expired, dropped and strayed the event is. */
  function Parts(s: World, e: Event): nat {
    One(e in s.backlog) + One(e in AckedEvents(s)) + One(e in s.expired) + One(e in s.dropped) + One(e in s.strayed)
  }

  ghost predicate PartsOk(s: World) {
    forall e :: Parts(s, e) == One(e in s.published)
  }

  /** Locked events are in the backlog, each locked by one transaction. */
  ghost predicate PullsOk(s: World) {
    && (forall t, n | t in s.txns && n in s.txns[t].pulled :: exists e :: e in s.backlog && e.seqno == n)
    && (forall t, u, n | t in s.txns && u in s.txns && n in s.txns[t].pulled && n in s.txns[u].pulled :: t == u)
  }

  ghost predicate DeliveryOk(s: World) {
    SeqOk(s) && PartsOk(s) && PullsOk(s)
  }

  /** Nothing that delivery depends on changed, except that places may have been emptied. */
  predicate Quieter(s: World, s': World) {
    && s'.published == s.published && s'.backlog == s.backlog && s'.acked == s.acked && s'.expired == s.expired
    && s'.dropped == s.dropped && s'.strayed == s.strayed && s'.nextSeq >= s.nextSeq
  }

  ghost predicate FewerPlaces(s: World, s': World) {
    && (forall p, e | At(s', p, e) :: At(s, p, e))
    && (forall t, n | t in s'.txns && n in s'.txns[t].pulled :: t in s.txns && n in s.txns[t].pulled)
  }

  lemma QuieterKeeps(s: World, s': World)
    requires DeliveryOk(s) && Quieter(s, s') && FewerPlaces(s, s')
    ensures DeliveryOk(s')
  {
    forall e ensures Parts(s', e) == One(e in s'.published) { assert Parts(s, e) == One(e in s.published); }
  }

  predicate New(s: World, s': World, e: Event) { s.nextSeq <= e.seqno < s'.nextSeq }

  /** Events with fresh numbers appear, each in one place. */
  lemma AddingKeeps(s: World, s': World)
    requires DeliveryOk(s) && Quieter(s, s')
    requires forall p, e | At(s', p, e) :: At(s, p, e) || (New(s, s', e) && !p.Committed?)
    requires forall p, q, e, f | At(s', p, e) && At(s', q, f) && New(s, s', e) && e.seqno == f.seqno :: p == q && e == f
    requires forall t, n | t in s'.txns && n in s'.txns[t].pulled :: t in s.txns && n in s.txns[t].pulled
    ensures DeliveryOk(s')
  {
    forall e ensures Parts(s', e) == One(e in s'.published) { assert Parts(s, e) == One(e in s.published); }
  }

  /** Only transaction t changed, by at most one event with a fresh number. */
  lemma OneEventMore(s: World, s': World, t: nat, added: set<Event>)
    requires DeliveryOk(s) && t in s.txns && t in s'.txns && Quieter(s, s') && s'.bfs == s.bfs
    requires s'.txns == s.txns[t := s'.txns[t]] && s'.txns[t].pulled == s.txns[t].pulled
    requires s'.txns[t].events == s.txns[t].events + added
    requires (forall e | e in added :: New(s, s', e)) && (forall e, f | e in added && f in added :: e == f)
    ensures DeliveryOk(s')
  {
    assert forall p, e | At(s', p, e) :: At(s, p, e) || (e in added && p == InTxn(t));
    assert SeqOk(s) by { DeliveryParts(s); }
    hide DeliveryOk;
    AddingKeeps(s, s');
  }

  lemma WriteDelivers(s: World, t: nat, id: Id, op: Op)
    requires PurityOk(s) && DeliveryOk(s) && t in s.txns
    ensures DeliveryOk(WriteRow(s, t, id, op))
  {
    var s' := WriteRow(s, t, id, op);
    var row := NewRow(s, t, id, op);
    if row.Some? && s' != s {
      hide Apply, Publishes, NewRow, DeliveryOk;
      assert s'.txns[t] == Buffered(s, t, id, op, row.value);
      OneEventMore(s, s', t, if Emits(s, t, op, row.value) then {EventFor(s, id, row.value)} else {});
    }
  }

  lemma DeliveryParts(s: World)
    requires DeliveryOk(s)
    ensures SeqOk(s) && PartsOk(s) && PullsOk(s)
  {
  }

  lemma CommitDelivers(s: World, t: nat)
    requires PurityOk(s) && DeliveryOk(s) && t in s.txns
    ensures DeliveryOk(CommitTxn(s, t))
  {
    var s' := CommitTxn(s, t);
    var added := s.txns[t].events;
    forall p, e | At(s', p, e) ensures At(s, if p.Committed? && e in added then InTxn(t) else p, e) {}
    forall e ensures Parts(s', e) == One(e in s'.published) {
      assert Parts(s, e) == One(e in s.published);
      if e in added { assert At(s, InTxn(t), e); assert !At(s, Committed, e); }
    }
  }

  lemma ScanDelivers(s: World, b: nat, ids: seq<Id>, limit: nat)
    requires PurityOk(s) && DeliveryOk(s) && b in s.bfs && s.bfs[b].phase.Chunk? && s.bfs[b].phase.work.None?
    ensures DeliveryOk(ScanChunk(s, b, ids, limit))
  {
    hide DeliveryOk, Scans;
    var s' := ScanChunk(s, b, ids, limit);
    DeliveryParts(s);
    if s' != s {
      forall p, e | At(s', p, e) ensures At(s, p, e) || (p.InChunk? && p.b == b && e.seqno == s.nextSeq + p.i && New(s, s', e)) {}
      AddingKeeps(s, s');
    }
  }

  lemma ChunkDelivers(s: World, b: nat)
    requires PurityOk(s) && DeliveryOk(s) && b in s.bfs && s.bfs[b].phase.Chunk? && s.bfs[b].phase.work.Some? && s.reg.Some?
    ensures DeliveryOk(CommitChunk(s, b, s.bfs[b].phase.work.value))
  {
    var work := s.bfs[b].phase.work.value;
    var s' := CommitChunk(s, b, work);
    var added := set e | e in work.events;
    ChunkEventsMove(s, b);
    forall e ensures Parts(s', e) == One(e in s'.published) {
      assert Parts(s, e) == One(e in s.published);
      if e in added {
        var i :| 0 <= i < |work.events| && work.events[i] == e;
        assert At(s, InChunk(b, i), e) && !At(s, Committed, e);
      }
    }
  }

  lemma ChunkEventsMove(s: World, b: nat)
    requires SeqOk(s) && b in s.bfs && s.bfs[b].phase.Chunk? && s.bfs[b].phase.work.Some? && s.reg.Some?
    ensures SeqOk(CommitChunk(s, b, s.bfs[b].phase.work.value))
  {
    var work := s.bfs[b].phase.work.value;
    var s' := CommitChunk(s, b, work);
    forall p, e | At(s', p, e) ensures exists q :: At(s, q, e) && (q == p || (p.Committed? && q.InChunk? && q.b == b)) {
      if p.Committed? && e !in s.published {
        var i :| 0 <= i < |work.events| && work.events[i] == e;
        assert At(s, InChunk(b, i), e);
      } else {
        assert At(s, p, e);
      }
    }
  }

  /** A new batch locks only rows that are in the backlog and that nobody else has locked. */
  lemma OpenDelivers(s: World, s': World, seqnos: set<nat>, size: nat)
    requires PurityOk(s) && DeliveryOk(s) && IsPull(s, seqnos, size)
    requires Quieter(s, s') && s'.bfs == s.bfs && s'.txns == s.txns[s.clock := Txn(Closed, map[], {}, true, seqnos, [])]
    ensures DeliveryOk(s')
  {
    assert forall p, e | At(s', p, e) :: At(s, p, e);
    forall e ensures Parts(s', e) == One(e in s'.published) { assert Parts(s, e) == One(e in s.published); }
    forall n | n in seqnos ensures (exists e :: e in s.backlog && e.seqno == n) && !Pulled(s, n) {
      var e :| Available(s, e) && e.seqno == n;
    }
  }

  lemma PullDelivers(s: World, c: nat, seqnos: set<nat>, size: nat)
    requires PurityOk(s) && DeliveryOk(s) && c in s.feeds
    ensures DeliveryOk(PullBatch(s, c, seqnos, size))
  {
    hide DeliveryOk, IsPull;
    var s' := PullBatch(s, c, seqnos, size);
    if s'.txns == s.txns { QuieterKeeps(s, s'); } else { OpenDelivers(s, s', seqnos, size); }
  }

  /** An acknowledgement takes exactly the batch's own rows from the backlog. */
  lemma AckDelivers(s: World, c: nat, t: nat)
    requires PurityOk(s) && DeliveryOk(s) && c in s.feeds && s.feeds[c].batch == Some(t) && t in s.txns
    ensures DeliveryOk(AckBatch(s, c, t))
  {
    var s1 := CommitTxn(s, t);
    var s' := AckBatch(s, c, t);
    var mine := PulledEvents(s, t);
    CommitDelivers(s, t);
    forall e | e in mine ensures (s.feeds[c].gen, e) in s'.acked && e in AckedEvents(s') {
      assert (s.feeds[c].gen, e) in (set f | f in mine :: (s.feeds[c].gen, f));
      assert (s.feeds[c].gen, e).1 == e;
    }
    assert AckedEvents(s') == AckedEvents(s) + mine;
    assert forall p, e | At(s', p, e) :: At(s1, p, e);
    forall e ensures Parts(s', e) == One(e in s'.published) { assert Parts(s1, e) == One(e in s1.published); }
    forall u, n | u in s'.txns && n in s'.txns[u].pulled ensures exists e :: e in s'.backlog && e.seqno == n {
      var e :| e in s.backlog && e.seqno == n;
      assert e !in mine;
    }
  }

  lemma ExpireDelivers(s: World, seqnos: set<nat>)
    requires PurityOk(s) && DeliveryOk(s)
    ensures DeliveryOk(Next(s, Expire(seqnos)))
  {
    var s' := Next(s, Expire(seqnos));
    assert forall p, e | At(s', p, e) :: At(s, p, e);
    forall e ensures Parts(s', e) == One(e in s'.published) { assert Parts(s, e) == One(e in s.published); }
    forall t, n | t in s'.txns && n in s'.txns[t].pulled ensures exists e :: e in s'.backlog && e.seqno == n {
      var e :| e in s.backlog && e.seqno == n;
      assert Pulled(s, n);
    }
  }

  lemma LeaveDelivers(s: World, u: nat)
    requires PurityOk(s) && DeliveryOk(s) && u in s.leaving
    ensures DeliveryOk(FinishLeaving(s, u))
  {
    var s' := FinishLeaving(s, u);
    assert forall p, e | At(s', p, e) :: At(s, p, e);
    forall e ensures Parts(s', e) == One(e in s'.published) { assert Parts(s, e) == One(e in s.published); }
    forall t | t in s.txns ensures TxnOk(s, t) {}
  }
}
