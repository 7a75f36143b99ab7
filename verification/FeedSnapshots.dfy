/** What a backfill may show: only what the registration asks for, as it was when it was scanned. */
module FeedSnapshots {
  import opened Rows
  import opened Feed
  import opened FeedPurity
  import opened FeedBackfill
  import opened FeedRuns

  /** The registration asks for this, unless its filters have changed since. */
  predicate Wanted(reg: Reg, e: Event) {
    reg.stable ==>
      && e.face.state in reg.filter.states
      && (reg.filter.types.None? || e.face.typ in reg.filter.types.value)
  }

  /** The marker stands for states of the filter and carries the registration's window. */
  predicate MarkerFits(reg: Reg, marker: Option<Marker>) {
    marker.Some? ==> marker.value.since == reg.since && (reg.stable ==> marker.value.pending.Keys <= reg.filter.states)
  }

  predicate WorkFits(s: World, b: nat)
    requires b in s.bfs
  {
    var p := s.bfs[b].phase;
    p.Chunk? && p.work.Some? && s.reg.Some? ==>
      && MarkerFits(s.reg.value, p.work.value.marker)
      && forall e | e in p.work.value.events :: e.gen == s.reg.value.gen && e.snapshot && Wanted(s.reg.value, e)
  }

  ghost predicate SnapshotsOk(s: World) {
    && (s.reg.Some? ==> MarkerFits(s.reg.value, s.reg.value.marker))
    && (forall e | e in s.snaps && s.reg.Some? && e.gen == s.reg.value.gen :: Wanted(s.reg.value, e))
    && (forall b | b in s.bfs :: WorkFits(s, b))
    && (forall e | e in s.published && e.snapshot :: e in s.snaps)
  }

  // -------------------------------------------------------------------------------- step by step

  /** Nothing about registrations, open chunks or backfilled events changed, but a registration may go. */
  predicate Aside(s: World, s': World) {
    && (s'.reg == s.reg || s'.reg.None?) && s'.snaps == s.snaps
    && (forall b | b in s'.bfs && s'.bfs[b].phase.Chunk? && s'.bfs[b].phase.work.Some? :: b in s.bfs && s'.bfs[b] == s.bfs[b])
    && (forall e | e in s'.published && e.snapshot :: e in s.published)
  }

  lemma AsideKeeps(s: World, s': World)
    requires SnapshotsOk(s) && Aside(s, s')
    ensures SnapshotsOk(s')
  {
    forall b | b in s'.bfs ensures WorkFits(s', b) { if b in s.bfs { assert WorkFits(s, b); } }
  }

  lemma CommitIsAside(s: World, t: nat)
    requires PurityOk(s) && t in s.txns
    ensures Aside(s, CommitTxn(s, t))
  {
    assert TxnOk(s, t);
  }

  lemma AckIsAside(s: World, c: nat)
    requires PurityOk(s) && c in s.feeds && s.feeds[c].batch.Some? && s.feeds[c].batch.value in s.txns
    ensures Aside(s, Next(s, Ack(c)))
  {
    CommitIsAside(s, s.feeds[c].batch.value);
  }

  lemma WriteIsAside(s: World, t: nat, id: Id, op: Op)
    requires t in s.txns
    ensures Aside(s, WriteRow(s, t, id, op))
  {
    hide Apply, Publishes;
  }

  lemma OthersAreAside(s: World, step: Step)
    requires PurityOk(s) && !step.Register? && !step.ChunkScan? && !step.ChunkCommit?
    ensures Aside(s, Next(s, step))
  {
    if Quiet(step) {
      QuietShape(s, step);
    } else if step.Write? {
      if step.t in s.txns { WriteIsAside(s, step.t, step.id, step.op); }
    } else if step.Commit? {
      if step.t in s.txns { CommitIsAside(s, step.t); }
    } else if step.Ack? {
      if step.c in s.feeds && s.feeds[step.c].batch.Some? && s.feeds[step.c].batch.value in s.txns { AckIsAside(s, step.c); }
    } else {
      DeliveryShape(s, step);
      PublishedStay(s, step);
    }
    hide Next, PurityOk;
  }

  lemma PublishedStay(s: World, step: Step)
    requires step.Pull? || step.Expire? || step.LeaveDone?
    ensures Next(s, step).published == s.published
  {
    hide IsPull;
  }

  lemma RegisterKeepsSnapshots(s: World, b: nat, filter: Filter, backfill: Option<Option<Time>>)
    requires PurityOk(s) && SnapsOk(s) && SnapshotsOk(s)
    ensures SnapshotsOk(RegisterName(s, b, filter, backfill))
  {
    var s' := RegisterName(s, b, filter, backfill);
    if s' != s {
      assert forall d | d in s'.bfs :: !s'.bfs[d].phase.Chunk?;
      assert forall i | 0 <= i < |s.snaps| :: s.snaps[i].gen < s.clock;
    }
  }

  /** A scanned row, seen from outside: it is there, of the state whose turn it is, of a type asked for,
      and, if terminal, finished within the window. */
  predicate Scannable(s: World, reg: Reg, e: Event) {
    && e.gen == reg.gen && e.snapshot && e.id in s.tasks && e.face == FaceOf(s.tasks[e.id])
    && (reg.filter.types.None? || e.face.typ in reg.filter.types.value)
    && (e.face.state.Terminal() && reg.since.Some? ==>
          s.tasks[e.id].finishedAt.Some? && s.tasks[e.id].finishedAt.value >= reg.since.value)
  }

  lemma ProjectsScannable(s: World, ids: seq<Id>, limit: nat)
    requires s.reg.Some? && s.reg.value.marker.Some? && Scans(s, s.reg.value, s.reg.value.marker.value, ids, limit)
    requires MarkerFits(s.reg.value, s.reg.value.marker)
    ensures
      var w := Project(s, s.reg.value, s.reg.value.marker.value, ids, limit);
      && MarkerFits(s.reg.value, w.marker)
      && forall e | e in w.events :: Scannable(s, s.reg.value, e) && Wanted(s.reg.value, e)
  {
    var reg := s.reg.value;
    var m := reg.marker.value;
    var w := Project(s, reg, m, ids, limit);
    if m.pending != map[] {
      var st := FirstPending(m.pending);
      forall e | e in w.events ensures Scannable(s, reg, e) && Wanted(reg, e) {
        var i :| 0 <= i < |w.events| && w.events[i] == e;
        assert Eligible(s, reg, st, m.pending[st], m.since, ids[i]);
      }
      assert w.marker == Advanced(m, st, ids, limit);
    }
  }

  lemma ScanKeepsSnapshots(s: World, b: nat, ids: seq<Id>, limit: nat)
    requires PurityOk(s) && SnapshotsOk(s) && b in s.bfs && s.bfs[b].phase.Chunk? && s.bfs[b].phase.work.None?
    ensures SnapshotsOk(ScanChunk(s, b, ids, limit))
  {
    var s' := ScanChunk(s, b, ids, limit);
    if s' != s {
      ProjectsScannable(s, ids, limit);
      hide Scans, Project;
      forall d | d in s'.bfs ensures WorkFits(s', d) { if d != b { assert WorkFits(s, d); } }
    }
  }

  lemma ChunkKeepsSnapshots(s: World, b: nat)
    requires PurityOk(s) && SnapshotsOk(s) && b in s.bfs && s.bfs[b].phase.Chunk? && s.bfs[b].phase.work.Some? && s.reg.Some?
    ensures SnapshotsOk(CommitChunk(s, b, s.bfs[b].phase.work.value))
  {
    var s' := CommitChunk(s, b, s.bfs[b].phase.work.value);
    assert WorkFits(s, b);
    forall d | d in s'.bfs ensures WorkFits(s', d) { if d != b { assert !s.bfs[d].phase.Chunk?; } }
  }

  lemma StepKeepsSnapshots(s: World, step: Step)
    requires FeedInv(s) && SnapshotsOk(s)
    ensures SnapshotsOk(Next(s, step))
  {
    hide SnapshotsOk, PurityOk, SnapsOk, ScanChunk, CommitChunk, RegisterName;
    if step.Register? {
      RegisterKeepsSnapshots(s, step.b, step.filter, step.backfill);
    } else if step.ChunkScan? {
      if step.b in s.bfs && s.bfs[step.b].phase.Chunk? && s.bfs[step.b].phase.work.None? { ScanKeepsSnapshots(s, step.b, step.ids, step.limit); }
    } else if step.ChunkCommit? {
      if step.b in s.bfs && s.bfs[step.b].phase.Chunk? && s.bfs[step.b].phase.work.Some? && s.reg.Some? { ChunkKeepsSnapshots(s, step.b); }
    } else {
      hide Next;
      OthersAreAside(s, step);
      AsideKeeps(s, Next(s, step));
    }
  }

  lemma {:induction false} RunsKeepSnapshots(steps: seq<Step>)
    ensures SnapshotsOk(Exec(steps))
    decreases |steps|
  {
    hide Next, FeedInv;
    if steps != [] {
      RunsKeepSnapshots(steps[..|steps| - 1]);
      RunsKeepFeed(steps[..|steps| - 1]);
      StepKeepsSnapshots(Exec(steps[..|steps| - 1]), steps[|steps| - 1]);
    }
  }

  // ------------------------------------------------------------------------------------- theorems

  /** The event is in a chunk that is still to be committed. */
  predicate InChunk(s: World, b: nat, e: Event) {
    b in s.bfs && s.bfs[b].phase.Chunk? && s.bfs[b].phase.work.Some? && e in s.bfs[b].phase.work.value.events
  }

  /** While its filters are what they were at first, a registration never gets a backfilled event of a
      state or a type it did not ask for, committed or about to be. */
  lemma BackfillShowsOnlyWhatIsAsked(steps: seq<Step>, e: Event, b: nat)
    requires Exec(steps).reg.Some? && Exec(steps).reg.value.stable
    requires (e in Exec(steps).published && e.snapshot && e.gen == Exec(steps).reg.value.gen) || InChunk(Exec(steps), b, e)
    ensures Matches(Exec(steps).reg.value.filter, e.face)
  {
    RunsKeepSnapshots(steps);
    assert InChunk(Exec(steps), b, e) ==> WorkFits(Exec(steps), b);
  }

  /** Step n scanned this row for the registration of the moment. */
  ghost predicate ScannedAt(steps: seq<Step>, n: nat, e: Event) {
    n < |steps| && steps[n].ChunkScan? && Exec(steps[..n]).reg.Some? && Scannable(Exec(steps[..n]), Exec(steps[..n]).reg.value, e)
  }

  lemma ScannedBefore(steps: seq<Step>, n: nat, e: Event)
    requires steps != [] && ScannedAt(steps[..|steps| - 1], n, e)
    ensures ScannedAt(steps, n, e)
  {
    assert steps[..|steps| - 1][..n] == steps[..n];
  }

  lemma NewInChunk(s: World, step: Step, b: nat, e: Event)
    requires PurityOk(s) && SnapshotsOk(s) && InChunk(Next(s, step), b, e) && !InChunk(s, b, e)
    ensures step.ChunkScan? && s.reg.Some? && Scannable(s, s.reg.value, e)
  {
    if step.ChunkScan? {
      if step.b in s.bfs && s.bfs[step.b].phase.Chunk? && s.bfs[step.b].phase.work.None? && ScanChunk(s, step.b, step.ids, step.limit) != s {
        ProjectsScannable(s, step.ids, step.limit);
        hide Scans, Project;
      }
    } else if !step.Register? && !step.ChunkCommit? {
      OthersAreAside(s, step);
      hide Next;
    }
  }

  lemma NewSnapshot(s: World, step: Step, e: Event) returns (b: nat)
    requires PurityOk(s) && e in Next(s, step).snaps && e !in s.snaps
    ensures InChunk(s, b, e)
  {
    if step.ChunkCommit? {
      b := step.b;
    } else {
      b := 0;
      if !step.Register? && !step.ChunkScan? {
        OthersAreAside(s, step);
        hide Next;
      }
    }
  }

  /** Every backfilled event shows a task exactly as it was at the moment some chunk scanned it: of a type
      its registration asked for then, with the state, type and attempt it had, and, if terminal,
      finished within the window of the registration. */
  lemma {:induction false} BackfillShowsWhatWas(steps: seq<Step>, e: Event, b: nat) returns (n: nat)
    requires e in Exec(steps).snaps || InChunk(Exec(steps), b, e)
    ensures ScannedAt(steps, n, e)
    decreases |steps|
  {
    hide Next, PurityOk, SnapshotsOk;
    var last := |steps| - 1;
    var s := Exec(steps[..last]);
    RunsKeepFeed(steps[..last]);
    RunsKeepSnapshots(steps[..last]);
    if e in s.snaps || InChunk(s, b, e) {
      n := BackfillShowsWhatWas(steps[..last], e, b);
      ScannedBefore(steps, n, e);
    } else if e in Exec(steps).snaps {
      var d := NewSnapshot(s, steps[last], e);
      n := BackfillShowsWhatWas(steps[..last], e, d);
      ScannedBefore(steps, n, e);
    } else {
      NewInChunk(s, steps[last], b, e);
      n := last;
    }
  }
}
